/**
 * The bounded A/B qualification: three gated stages of four blocks each. A signal can interrupt the
 * run between any two steps, and the driver of a block may swallow the interruption.
 */
module GatedQualification {
  import opened Common
  import G = QualificationGate

  // ---------------------------------------------------------------- the transfers one block plans

  datatype Kind = ControlBefore | Warmup | Measurement | ControlAfter | Captured

  datatype Case = Case(profile: string, kind: Kind)

  function Repeat(c: Case, n: nat): (r: seq<Case>)
    ensures |r| == n && forall i :: 0 <= i < n ==> r[i] == c
  {
    seq(n, _ => c)
  }

  /** Warmups only without capture, then the repetitions. */
  function ProfileCases(profile: string, repetitions: nat, warmups: nat, capture: bool): seq<Case> {
    Repeat(Case(profile, Warmup), if capture then 0 else warmups)
    + Repeat(Case(profile, if capture then Captured else Measurement), repetitions)
  }

  function AllCases(profiles: seq<string>, repetitions: nat, warmups: nat, capture: bool): seq<Case> {
    if profiles == [] then []
    else AllCases(profiles[..|profiles| - 1], repetitions, warmups, capture)
         + ProfileCases(profiles[|profiles| - 1], repetitions, warmups, capture)
  }

  function Bracketed(cases: seq<Case>, reference: bool, capture: bool): seq<Case> {
    if reference && !capture
    then [Case("haivision-self", ControlBefore)] + cases + [Case("haivision-self", ControlAfter)]
    else cases
  }

  method CasePlan(profiles: seq<string>, repetitions: nat, warmups: nat, reference: bool, capture: bool)
    returns (plan: seq<Case>)
    ensures plan == Bracketed(AllCases(profiles, repetitions, warmups, capture), reference, capture)
  {
    plan := [];
    if reference && !capture {
      plan := plan + [Case("haivision-self", ControlBefore)];
    }
    ghost var head := plan;
    for p := 0 to |profiles|
      invariant plan == head + AllCases(profiles[..p], repetitions, warmups, capture)
    {
      plan := AddProfile(plan, profiles[p], repetitions, warmups, capture);
      assert profiles[..p + 1][..p] == profiles[..p];
    }
    assert profiles[..|profiles|] == profiles;
    if reference && !capture {
      plan := plan + [Case("haivision-self", ControlAfter)];
    }
  }

  method AddProfile(plan: seq<Case>, profile: string, repetitions: nat, warmups: nat, capture: bool)
    returns (longer: seq<Case>)
    ensures longer == plan + ProfileCases(profile, repetitions, warmups, capture)
  {
    longer := plan;
    var runs := if capture then 0 else warmups;
    for i := 0 to runs
      invariant longer == plan + Repeat(Case(profile, Warmup), i)
    {
      longer := longer + [Case(profile, Warmup)];
    }
    var measured := Case(profile, if capture then Captured else Measurement);
    for i := 0 to repetitions
      invariant longer == plan + Repeat(Case(profile, Warmup), runs) + Repeat(measured, i)
    {
      longer := longer + [measured];
    }
  }

  lemma {:induction false} PlanSize(profiles: seq<string>, repetitions: nat, warmups: nat)
    ensures |AllCases(profiles, repetitions, warmups, false)| == |profiles| * (warmups + repetitions)
  {
    if profiles != [] {
      PlanSize(profiles[..|profiles| - 1], repetitions, warmups);
      assert |profiles| * (warmups + repetitions)
        == (|profiles| - 1) * (warmups + repetitions) + (warmups + repetitions);
    }
  }

  // ---------------------------------------------------------------- stages and blocks

  datatype Spec = Spec(name: string, repetitions: nat, warmups: nat)

  const STAGES: seq<Spec> := [
    Spec("00-window-128m", 2, 0), Spec("01-long-1g", 3, 1), Spec("02-ten-streams", 3, 1)]

  const PROFILES: seq<string> := ["robotweax-self", "robotweax-to-haivision"]

  datatype Variant = Baseline | Candidate

  const ORDER: seq<Variant> := [Baseline, Candidate, Candidate, Baseline]

  datatype Block = Block(variant: Variant, exit: Option<int>, contract: Option<bool>)

  datatype Gate = Gate(contract: bool, qualified: bool)

  datatype Stage = Stage(spec: Spec, blocks: seq<Block>, gate: Option<Gate>, skipped: bool)

  ghost predicate Passed(s: Stage) {
    s.gate.Some? && s.gate.value.qualified
  }

  ghost predicate InOrder(blocks: seq<Block>) {
    |blocks| <= |ORDER| && forall i :: 0 <= i < |blocks| ==> blocks[i].variant == ORDER[i]
  }

  /** A gate that passed has seen all four blocks, in order, each with its measurement contract met. */
  ghost predicate Earned(s: Stage) {
    Passed(s) ==> |s.blocks| == |ORDER| && InOrder(s.blocks) && forall b :: b in s.blocks ==> b.contract == Some(true)
  }

  ghost predicate Sound(s: Stage, index: nat) {
    && index < |STAGES| && s.spec == STAGES[index]
    && InOrder(s.blocks) && Earned(s)
    && (s.skipped ==> s.blocks == [] && s.gate == None)
  }

  /** Stages follow the plan, and one that is not skipped comes after stages that all passed their gate. */
  ghost predicate Gated(stages: seq<Stage>) {
    && |stages| <= |STAGES|
    && (forall i :: 0 <= i < |stages| ==> Sound(stages[i], i))
    && (forall i, k :: 0 <= i < k < |stages| && !stages[k].skipped ==> Passed(stages[i]))
  }

  ghost predicate AllPassed(stages: seq<Stage>) {
    |stages| == |STAGES| && forall i :: 0 <= i < |stages| ==> Passed(stages[i])
  }

  /** Transfers planned by one block of stage `index`, and by all stages before it. */
  function PerBlock(index: nat): nat {
    if index == 0 then 6 else 10
  }

  function Before(index: nat): nat {
    if index == 0 then 0 else if index == 1 then 24 else if index == 2 then 64 else 104
  }

  lemma BlockSize(index: nat)
    requires index < |STAGES|
    ensures |Bracketed(AllCases(PROFILES, STAGES[index].repetitions, STAGES[index].warmups, false), true, false)|
      == PerBlock(index)
  {
  }

  /** Transfers planned once `blocks` blocks of stage `index` have been started. */
  function Planned(index: nat, blocks: nat): nat {
    Before(index) + if index == 0 then 6 * blocks else 10 * blocks
  }

  /** The stages after a failed gate, all marked as skipped. */
  function Skipped(index: nat): (r: seq<Stage>)
    requires index <= |STAGES|
    ensures |r| == |STAGES| - index
    decreases |STAGES| - index
  {
    if index == |STAGES| then [] else [Stage(STAGES[index], [], None, true)] + Skipped(index + 1)
  }

  // ---------------------------------------------------------------- the environment of a run

  /** The places of the program where a signal can be noticed or a file operation can fail. */
  datatype Point =
    | Opening(stage: nat)
    | Preparing(stage: nat, block: nat)
    | Starting(stage: nat, block: nat)
    | Driving(stage: nat, block: nat)
    | Analysing(stage: nat, block: nat)
    | Logging(stage: nat, block: nat)
    | BeforeGate(stage: nat)
    | AfterGate(stage: nat)
    | Stopping(stage: nat)
    | BeforeReport
    | AfterReport
    | Finishing

  datatype Driven = Exit(code: int) | Error

  /** A driver that fails with an exception counts as exit code 1. */
  function ExitCode(d: Driven): int {
    match d case Exit(code) => code case Error => 1
  }

  /** Everything the program does not decide: where signals arrive, what fails, what the drivers do and measure. */
  datatype World = World(
    signals: Point -> Option<nat>,
    works: Point -> bool,
    driver: (nat, nat) -> Driven,
    swallows: (nat, nat) -> bool,
    contract: (nat, nat) -> bool,
    controls: nat -> seq<Option<real>>,
    profiles: nat -> seq<G.Profile>)

  /** The measured values of a stage meet the thresholds. */
  ghost predicate Rule(w: World, index: nat)
    requires index < |STAGES|
  {
    G.Qualifies(w.controls(index), G.Comparisons(w.profiles(index), STAGES[index].repetitions))
  }

  /** Nothing disturbs the start of a block, and nothing disturbs the rest of it. */
  ghost predicate StartsBlock(w: World, index: nat, block: nat) {
    && w.signals(Preparing(index, block)) == None && w.signals(Starting(index, block)) == None
    && w.works(Starting(index, block))
  }

  ghost predicate EndsBlock(w: World, index: nat, block: nat) {
    && w.signals(Analysing(index, block)) == None && w.signals(Logging(index, block)) == None
    && w.works(Logging(index, block))
  }

  ghost predicate ClearBlock(w: World, index: nat, block: nat) {
    StartsBlock(w, index, block) && w.signals(Driving(index, block)) == None && EndsBlock(w, index, block)
  }

  ghost predicate ClearBlocks(w: World, index: nat) {
    forall j :: 0 <= j < |ORDER| ==> ClearBlock(w, index, j)
  }

  /** Nothing disturbs a stage before its gate has spoken. */
  ghost predicate ClearStage(w: World, index: nat) {
    && w.signals(Opening(index)) == None && w.works(Opening(index))
    && ClearBlocks(w, index)
    && w.signals(BeforeGate(index)) == None
  }

  ghost predicate Contracted(w: World, index: nat) {
    forall j :: 0 <= j < |ORDER| ==> w.contract(index, j)
  }

  /** What the gate of a stage says when all its blocks have run. */
  ghost predicate Qualifies(w: World, index: nat) {
    index < |STAGES| && Contracted(w, index) && Rule(w, index)
  }

  /** The program order: which point comes right after another; the cleanup comes after any of them. */
  ghost predicate Follows(before: Option<Point>, p: Point) {
    if before == None then p == Opening(0)
    else
      match p
      case Opening(i) => i > 0 && before == Some(AfterGate(i - 1))
      case Preparing(i, j) => before == Some(if j == 0 then Opening(i) else Logging(i, j - 1))
      case Starting(i, j) => before == Some(Preparing(i, j))
      case Driving(i, j) => before == Some(Starting(i, j))
      case Analysing(i, j) => before == Some(Driving(i, j))
      case Logging(i, j) => before == Some(Analysing(i, j))
      case BeforeGate(i) => before == Some(Logging(i, |ORDER| - 1))
      case AfterGate(i) => before == Some(BeforeGate(i))
      case Stopping(i) => before == Some(AfterGate(i))
      case BeforeReport => before == Some(AfterGate(|STAGES| - 1))
      case AfterReport => before == Some(BeforeReport)
      case Finishing => before != Some(Finishing)
  }

  /** The points of a block. */
  ghost function BlockPoint(index: nat, block: nat, n: nat): Point {
    if n <= 1 then Preparing(index, block)
    else if n == 2 then Starting(index, block)
    else if n == 3 then Driving(index, block)
    else if n == 4 then Analysing(index, block)
    else Logging(index, block)
  }

  // ---------------------------------------------------------------- what the report shows

  /** What each gate says, as far as the report is concerned. */
  type Gates = nat -> Gate

  ghost function GatesOf(w: World): Gates {
    (i: nat) => Gate(Contracted(w, i), Qualifies(w, i))
  }

  ghost predicate Meant(w: World, gates: Gates, index: nat) {
    gates(index) == Gate(Contracted(w, index), Qualifies(w, index))
  }

  ghost predicate AllMeant(w: World, gates: Gates) {
    forall i :: 0 <= i < |STAGES| ==> Meant(w, gates, i)
  }

  /** A block that ran. */
  ghost function Done(w: World, index: nat, block: nat): Block
    requires block < |ORDER|
  {
    Block(ORDER[block], Some(ExitCode(w.driver(index, block))), Some(w.contract(index, block)))
  }

  ghost function AllDone(w: World, index: nat, blocks: nat): (r: seq<Block>)
    requires blocks <= |ORDER|
    ensures |r| == blocks && forall j :: 0 <= j < blocks ==> r[j] == Done(w, index, j)
  {
    seq(blocks, j requires 0 <= j < blocks => Done(w, index, j))
  }

  ghost predicate AllTrue(blocks: seq<Block>) {
    forall b :: b in blocks ==> b.contract == Some(true)
  }

  ghost function Opened(w: World, gates: Gates, index: nat, blocks: seq<Block>): seq<Stage>
    requires index < |STAGES|
  {
    AllJudged(w, gates, index) + [Stage(STAGES[index], blocks, None, false)]
  }

  ghost function Judged(w: World, gates: Gates, index: nat): Stage
    requires index < |STAGES|
  {
    Stage(STAGES[index], AllDone(w, index, |ORDER|), Some(gates(index)), false)
  }

  ghost function AllJudged(w: World, gates: Gates, stages: nat): (r: seq<Stage>)
    requires stages <= |STAGES|
    ensures |r| == stages && forall i :: 0 <= i < stages ==> r[i] == Judged(w, gates, i)
  {
    seq(stages, i requires 0 <= i < stages => Judged(w, gates, i))
  }

  /** What the report shows of a block after n points of its path. */
  ghost function Shown(w: World, index: nat, block: nat, n: nat, exit: Option<int>): seq<Block>
    requires block < |ORDER|
  {
    if n <= 1 then [] else if n < 5 then [Block(ORDER[block], exit, None)] else [Done(w, index, block)]
  }

  ghost function WithBlock(w: World, gates: Gates, index: nat, block: nat, n: nat, exit: Option<int>): seq<Stage>
    requires index < |STAGES| && block < |ORDER|
  {
    Opened(w, gates, index, AllDone(w, index, block) + Shown(w, index, block, n, exit))
  }

  /** Where a run can be when it ends. */
  datatype Place =
    | AtOpening(stage: nat, begun: bool)
    | InBlock(stage: nat, block: nat, n: nat)
    | AtGate(stage: nat)
    | PastGate(stage: nat)
    | Stopped(stage: nat)
    | Reporting

  ghost predicate Known(p: Place) {
    match p
    case Reporting => true
    case InBlock(i, j, n) => i < |STAGES| && j < |ORDER| && 1 <= n <= 5
    case _ => p.stage < |STAGES|
  }

  /** The stages of a report, determined by where the run ends; `exit` is what an unanalysed block shows. */
  ghost function Report(w: World, gates: Gates, p: Place, exit: Option<int>): seq<Stage>
    requires Known(p)
  {
    match p
    case AtOpening(i, begun) => if begun then Opened(w, gates, i, []) else AllJudged(w, gates, i)
    case InBlock(i, j, n) => WithBlock(w, gates, i, j, n, exit)
    case AtGate(i) => Opened(w, gates, i, AllDone(w, i, |ORDER|))
    case PastGate(i) => AllJudged(w, gates, i + 1)
    case Stopped(i) => AllJudged(w, gates, i + 1) + Skipped(i + 1)
    case Reporting => AllJudged(w, gates, |STAGES|)
  }

  /** The last point that a run ending at a place has passed. */
  ghost predicate EndsAt(p: Place, end: Point)
    requires Known(p)
  {
    match p
    case AtOpening(i, begun) => end == Opening(i)
    case InBlock(i, j, n) => end == BlockPoint(i, j, n)
    case AtGate(i) => end == BeforeGate(i)
    case PastGate(i) => end == AfterGate(i)
    case Stopped(i) => end == Stopping(i)
    case Reporting => end == BeforeReport || end == AfterReport
  }

  /** A run gets to a place only behind passed gates, and stops only at a gate that failed. */
  ghost predicate Behind(gates: Gates, p: Place) {
    && Known(p)
    && (forall i :: 0 <= i < (if p.Reporting? then |STAGES| else p.stage) ==> gates(i).qualified)
    && (p.Stopped? ==> !gates(p.stage).qualified)
  }

  /** Gates that pass have seen all their blocks meet the contract. */
  ghost predicate Honest(w: World, gates: Gates) {
    forall i :: 0 <= i < |STAGES| && gates(i).qualified ==> Contracted(w, i)
  }

  lemma JudgedSound(w: World, gates: Gates, index: nat)
    requires index < |STAGES| && Honest(w, gates)
    ensures Sound(Judged(w, gates, index), index) && (Passed(Judged(w, gates, index)) <==> gates(index).qualified)
  {
  }

  lemma {:induction false} SkippedAre(index: nat, i: nat)
    requires index <= |STAGES| && i < |Skipped(index)|
    ensures Skipped(index)[i] == Stage(STAGES[index + i], [], None, true)
    decreases i
  {
    if i > 0 {
      SkippedAre(index + 1, i - 1);
    }
  }

  lemma OpenedGated(w: World, gates: Gates, index: nat, blocks: seq<Block>)
    requires index < |STAGES| && InOrder(blocks) && Honest(w, gates) && forall i :: 0 <= i < index ==> gates(i).qualified
    ensures Gated(Opened(w, gates, index, blocks)) && !AllPassed(Opened(w, gates, index, blocks))
  {
    var stages := Opened(w, gates, index, blocks);
    forall i | 0 <= i < index
      ensures Sound(stages[i], i) && Passed(stages[i])
    {
      JudgedSound(w, gates, i);
    }
    assert !Passed(stages[index]);
  }

  lemma JudgedGated(w: World, gates: Gates, stages: nat)
    requires stages <= |STAGES| && Honest(w, gates) && forall i :: 0 <= i < stages - 1 ==> gates(i).qualified
    ensures Gated(AllJudged(w, gates, stages))
    ensures AllPassed(AllJudged(w, gates, stages)) <==> stages == |STAGES| && gates(|STAGES| - 1).qualified
  {
    var all := AllJudged(w, gates, stages);
    forall i | 0 <= i < stages
      ensures Sound(all[i], i) && (Passed(all[i]) <==> gates(i).qualified)
    {
      JudgedSound(w, gates, i);
    }
  }

  lemma SkippedGated(w: World, gates: Gates, index: nat)
    requires Behind(gates, Stopped(index)) && Honest(w, gates)
    ensures Gated(Report(w, gates, Stopped(index), None)) && !AllPassed(Report(w, gates, Stopped(index), None))
  {
    var all, rest := AllJudged(w, gates, index + 1), Skipped(index + 1);
    JudgedGated(w, gates, index + 1);
    forall i | 0 <= i < |rest|
      ensures rest[i] == Stage(STAGES[index + 1 + i], [], None, true)
    {
      SkippedAre(index + 1, i);
    }
    JudgedSound(w, gates, index);
    assert !Passed((all + rest)[index]);
  }

  /** Wherever a run ends, its stages started only behind passed gates; all passed only after the last gate. */
  lemma ReportGated(w: World, gates: Gates, p: Place, exit: Option<int>)
    requires Behind(gates, p) && Honest(w, gates)
    ensures Gated(Report(w, gates, p, exit))
    ensures AllPassed(Report(w, gates, p, exit)) <==>
      p == Reporting || (p == PastGate(|STAGES| - 1) && gates(|STAGES| - 1).qualified)
  {
    match p
    case AtOpening(i, begun) =>
      OpenedGated(w, gates, i, []);
      JudgedGated(w, gates, i);
    case InBlock(i, j, n) => OpenedGated(w, gates, i, AllDone(w, i, j) + Shown(w, i, j, n, exit));
    case AtGate(i) => OpenedGated(w, gates, i, AllDone(w, i, |ORDER|));
    case PastGate(i) => JudgedGated(w, gates, i + 1);
    case Stopped(i) => SkippedGated(w, gates, i);
    case Reporting => JudgedGated(w, gates, |STAGES|);
  }

  // ---------------------------------------------------------------- the run

  datatype Step = Next | Interrupted | Crashed

  datatype Verdict = Continue | Stop(code: int) | Abort(step: Step)

  datatype Ending = Returned(code: int) | Thrown

  class Run {
    const world: World
    var signal: Option<nat>
    var stages: seq<Stage>
    var complete: bool
    var qualified: bool
    var interrupted: bool
    var transfers: nat
    /** For each driver start, whether an interruption had been recorded by then. */
    ghost var starts: seq<bool>
    /** The last point passed, where the one signal that was noticed arrived, and where a file operation failed. */
    ghost var at: Option<Point>
    ghost var raisedAt: Option<Point>
    ghost var broken: Option<Point>
    ghost const gates: Gates

    ghost predicate Valid()
      reads this
    {
      && transfers <= 104
      && (forall late :: late in starts ==> !late)
      && Watched()
    }

    /** The signal recorded is the one that arrived there. */
    ghost predicate Watched()
      reads this
    {
      (signal.Some? <==> raisedAt.Some?) && (raisedAt.Some? ==> signal == world.signals(raisedAt.value))
    }

    /** How a step that does not go on left the run: at the point of the signal or of the failure. */
    ghost predicate Gave(step: Step)
      reads this
    {
      match step
      case Next => signal == None && broken == None
      case Interrupted => raisedAt == at && signal.Some? && broken == None
      case Crashed => broken == at && signal == None
    }

    constructor (world: World, ghost gates: Gates)
      ensures Valid() && stages == [] && signal == None && transfers == 0 && starts == []
      ensures !qualified && !interrupted && !complete && at == None && broken == None && this.world == world
      ensures this.gates == gates
    {
      signal, stages, complete, qualified, interrupted, transfers := None, [], false, false, false, 0;
      starts, at, raisedAt, broken, this.world := [], None, None, None, world;
      this.gates := gates;
    }

    /** A point where the first signal raises; once one has, all are ignored. */
    method Tick(p: Point) returns (raised: bool)
      requires Watched() && Follows(at, p)
      modifies this`signal, this`raisedAt, this`at
      ensures Watched() && at == Some(p)
      ensures raised <==> old(signal) == None && world.signals(p).Some?
      ensures raised ==> signal == world.signals(p) && raisedAt == Some(p)
      ensures !raised ==> signal == old(signal) && raisedAt == old(raisedAt)
    {
      raised := signal == None && world.signals(p).Some?;
      at := Some(p);
      if raised {
        signal, raisedAt := world.signals(p), Some(p);
      }
    }

    /** A file operation, which may fail and end the run. */
    method Write(p: Point) returns (ok: bool)
      modifies this`broken
      ensures ok == world.works(p) && broken == if ok then old(broken) else Some(p)
    {
      ok := world.works(p);
      if !ok {
        broken := Some(p);
      }
    }

    /** The driver runs the planned transfers; a signal may come at any moment, and the driver may swallow it. */
    method Drive(index: nat, block: nat) returns (escaped: bool, driven: Driven)
      requires index < |STAGES| && signal == None && Valid() && transfers + PerBlock(index) <= 104
      requires at == Some(Starting(index, block))
      modifies this`signal, this`transfers, this`starts, this`raisedAt, this`at
      ensures Valid() && transfers == old(transfers) + PerBlock(index) && starts == old(starts) + [false]
      ensures signal == world.signals(Driving(index, block)) && at == Some(Driving(index, block))
      ensures signal.Some? ==> raisedAt == Some(Driving(index, block))
      ensures escaped <==> signal.Some? && !world.swallows(index, block)
      ensures driven == world.driver(index, block)
    {
      var plan := CasePlan(PROFILES, STAGES[index].repetitions, STAGES[index].warmups, true, false);
      BlockSize(index);
      transfers := transfers + |plan|;
      starts := starts + [signal.Some?];
      var raised := Tick(Driving(index, block));
      escaped, driven := raised && !world.swallows(index, block), world.driver(index, block);
    }

    /** Announce a block and open its log. */
    method Prepare(index: nat, block: nat) returns (step: Step, ghost n: nat)
      requires Watched() && index < |STAGES| && block < |ORDER| && signal == None && broken == None
      requires stages == Opened(world, gates, index, AllDone(world, index, block))
      requires at == Some(if block == 0 then Opening(index) else Logging(index, block - 1))
      modifies this`signal, this`stages, this`raisedAt, this`at, this`broken
      ensures Watched() && Gave(step) && 1 <= n <= 2 && (step == Next ==> n == 2)
      ensures stages == WithBlock(world, gates, index, block, n, None)
      ensures at == Some(BlockPoint(index, block, n))
      ensures step == Next <==> StartsBlock(world, index, block)
    {
      n := 1;
      var raised := Tick(Preparing(index, block));
      assert AllDone(world, index, block) + [] == AllDone(world, index, block);
      if raised {
        return Interrupted, n;
      }
      var stage := stages[index];
      stages := stages[index := stage.(blocks := stage.blocks + [Block(ORDER[block], None, None)])];
      n := 2;
      raised := Tick(Starting(index, block));
      if raised {
        return Interrupted, n;
      }
      var ok := Write(Starting(index, block));
      step := if ok then Next else Crashed;
    }

    /**
     * One block: start the driver unless a signal is known, and give up as soon as one becomes known. The
     * block passes the first n points of its path, and the report shows it accordingly.
     */
    method RunBlock(index: nat, block: nat) returns (step: Step, ghost n: nat)
      requires Valid() && index < |STAGES| && block < |ORDER| && signal == None && broken == None
      requires stages == Opened(world, gates, index, AllDone(world, index, block))
      requires at == Some(if block == 0 then Opening(index) else Logging(index, block - 1))
      requires transfers == Planned(index, block)
      modifies this`signal, this`stages, this`transfers, this`starts, this`raisedAt, this`at, this`broken
      ensures Valid() && Gave(step) && 1 <= n <= 5 && (step == Next ==> n == 5)
      ensures stages == WithBlock(world, gates, index, block, n, None)
      ensures at == Some(BlockPoint(index, block, n))
      ensures step == Next <==> ClearBlock(world, index, block)
      ensures step == Next ==> transfers == Planned(index, block + 1) && starts == old(starts) + [false]
    {
      step, n := Prepare(index, block);
      if step != Next {
        return;
      }
      var escaped, driven := Drive(index, block);
      n := 3;
      if escaped || signal.Some? {
        return Interrupted, n;
      }
      step, n := Record(index, block, ExitCode(driven));
    }

    /** Analyse the block's report, or treat it as a broken contract, and write the progress out. */
    method Record(index: nat, block: nat, exit: int) returns (step: Step, ghost n: nat)
      requires Watched() && index < |STAGES| && block < |ORDER| && signal == None && broken == None
      requires stages == WithBlock(world, gates, index, block, 3, None)
      requires exit == ExitCode(world.driver(index, block)) && at == Some(Driving(index, block))
      modifies this`signal, this`stages, this`raisedAt, this`at, this`broken
      ensures Watched() && Gave(step) && 4 <= n <= 5 && (step == Next ==> n == 5)
      ensures stages == WithBlock(world, gates, index, block, n, None)
      ensures at == Some(BlockPoint(index, block, n))
      ensures step == Next <==> EndsBlock(world, index, block)
    {
      n := 4;
      var raised := Tick(Analysing(index, block));
      if raised {
        return Interrupted, n;
      }
      var stage, b := stages[index], Block(ORDER[block], Some(exit), Some(world.contract(index, block)));
      stages := stages[index := stage.(blocks := stage.blocks[block := b])];
      assert stages[index].blocks == AllDone(world, index, block) + [Done(world, index, block)];
      n := 5;
      raised := Tick(Logging(index, block));
      if raised {
        return Interrupted, n;
      }
      var ok := Write(Logging(index, block));
      step := if ok then Next else Crashed;
    }

    /** The four blocks of an open stage; the last one reached is `block`, and it passed n points. */
    method RunAll(index: nat) returns (step: Step, ghost block: nat, ghost n: nat)
      requires Valid() && index < |STAGES| && signal == None && broken == None
      requires stages == Opened(world, gates, index, []) && transfers == Before(index) && |starts| == |ORDER| * index
      requires at == Some(Opening(index))
      modifies this`signal, this`stages, this`transfers, this`starts, this`raisedAt, this`at, this`broken
      ensures Valid() && Gave(step) && block < |ORDER| && 1 <= n <= 5
      ensures stages == WithBlock(world, gates, index, block, n, None)
      ensures at == Some(BlockPoint(index, block, n)) && (step == Next ==> at == Some(Logging(index, |ORDER| - 1)))
      ensures step == Next ==> stages == Opened(world, gates, index, AllDone(world, index, |ORDER|))
      ensures step == Next ==> transfers == Before(index + 1) && |starts| == |ORDER| * (index + 1)
      ensures step == Next <==> ClearBlocks(world, index)
    {
      step, block, n := Next, 0, 1;
      assert AllDone(world, index, 0) == [];
      for j := 0 to |ORDER|
        invariant Valid() && signal == None && broken == None && step == Next
        invariant stages == Opened(world, gates, index, AllDone(world, index, j))
        invariant j > 0 ==> block == j - 1 && n == 5
        invariant transfers == Planned(index, j) && |starts| == |ORDER| * index + j
        invariant at == Some(if j == 0 then Opening(index) else Logging(index, j - 1))
        invariant forall k :: 0 <= k < j ==> ClearBlock(world, index, k)
      {
        block := j;
        step, n := RunBlock(index, j);
        if step != Next {
          return;
        }
        BlockDone(world, gates, index, j);
      }
      BlockDone(world, gates, index, |ORDER| - 1);
    }

    /** Judge a finished stage. */
    method PassGate(index: nat) returns (verdict: Verdict, ghost p: Place)
      requires Watched() && index < |STAGES| && signal == None && broken == None && !complete
      requires stages == Opened(world, gates, index, AllDone(world, index, |ORDER|))
      requires Meant(world, gates, index) && at == Some(Logging(index, |ORDER| - 1))
      modifies this`signal, this`stages, this`raisedAt, this`at, this`complete
      ensures Watched() && p in {AtGate(index), PastGate(index), Stopped(index)}
      ensures stages == Report(world, gates, p, None) && at.Some? && EndsAt(p, at.value)
      ensures p == AtGate(index) <==> world.signals(BeforeGate(index)).Some?
      ensures p == Stopped(index) <==> GateSpeaks(world, index) && !gates(index).qualified
      ensures verdict == Continue <==> GateSpeaks(world, index) && gates(index).qualified
      ensures verdict == Continue || verdict.Stop? ==> signal == None
      ensures verdict.Stop? ==> p == Stopped(index) && verdict.code == FailureCode(gates(index))
      ensures verdict.Abort? ==> verdict == Abort(Interrupted) && Gave(Interrupted)
      ensures complete <==> p == Stopped(index)
    {
      p := AtGate(index);
      var raised := Tick(BeforeGate(index));
      if raised {
        return Abort(Interrupted), p;
      }
      var gate := Judge(index);
      p := PastGate(index);
      raised := Tick(AfterGate(index));
      if raised {
        return Abort(Interrupted), p;
      }
      if gate.qualified {
        return Continue, p;
      }
      stages := stages + Skipped(index + 1);
      complete := true;
      p := Stopped(index);
      raised := Tick(Stopping(index));
      if raised {
        return Abort(Interrupted), p;
      }
      verdict := Stop(if gate.contract then 2 else 1);
    }

    /** Enter the gate's verdict in the report. */
    method Judge(index: nat) returns (gate: Gate)
      requires index < |STAGES| && stages == Opened(world, gates, index, AllDone(world, index, |ORDER|))
      requires Meant(world, gates, index)
      modifies this`stages
      ensures gate == gates(index) && stages == AllJudged(world, gates, index + 1)
    {
      gate := Qualify(stages[index], world.controls(index), world.profiles(index));
      GateIs(world, index, gate);
      stages := stages[index := stages[index].(gate := Some(gate))];
    }

    /** One stage: four blocks, then the gate; a failed gate skips every later stage. */
    method RunStage(index: nat) returns (verdict: Verdict, ghost p: Place)
      requires Valid() && index < |STAGES| && signal == None && broken == None && !complete
      requires stages == AllJudged(world, gates, index) && transfers == Before(index) && |starts| == |ORDER| * index
      requires at == if index == 0 then None else Some(AfterGate(index - 1))
      requires Meant(world, gates, index)
      modifies this`signal, this`stages, this`transfers, this`starts, this`raisedAt, this`at, this`broken, this`complete
      ensures Valid() && Known(p) && !p.Reporting? && p.stage == index
      ensures stages == Report(world, gates, p, None) && at.Some? && EndsAt(p, at.value)
      ensures verdict == Continue ==> Gave(Next) && p == PastGate(index)
      ensures verdict == Continue ==> transfers == Before(index + 1) && |starts| == |ORDER| * (index + 1)
      ensures verdict == Continue <==>
        ClearStage(world, index) && gates(index).qualified && world.signals(AfterGate(index)) == None
      ensures p == PastGate(index) ==> ClearStage(world, index)
      ensures ClearStage(world, index) && gates(index).qualified ==> p == PastGate(index)
      ensures verdict.Stop? ==> Gave(Next) && p == Stopped(index) && verdict.code == FailureCode(gates(index))
      ensures p == Stopped(index) ==> !gates(index).qualified
      ensures verdict.Abort? ==> Gave(verdict.step) && verdict.step != Next
      ensures complete <==> p == Stopped(index)
      ensures p == PastGate(index) ==> broken == None
    {
      p := AtOpening(index, false);
      var raised := Tick(Opening(index));
      if raised {
        return Abort(Interrupted), p;
      }
      stages := stages + [Stage(STAGES[index], [], None, false)];
      p := AtOpening(index, true);
      var ok := Write(Opening(index));
      if !ok {
        return Abort(Crashed), p;
      }
      verdict, p := RunOpened(index);
    }

    /** The blocks and the gate of an open stage. */
    method RunOpened(index: nat) returns (verdict: Verdict, ghost p: Place)
      requires Valid() && index < |STAGES| && signal == None && broken == None && !complete
      requires stages == Opened(world, gates, index, []) && transfers == Before(index) && |starts| == |ORDER| * index
      requires at == Some(Opening(index))
      requires Meant(world, gates, index)
      modifies this`signal, this`stages, this`transfers, this`starts, this`raisedAt, this`at, this`broken, this`complete
      ensures Valid() && Known(p) && !p.Reporting? && p.stage == index
      ensures stages == Report(world, gates, p, None) && at.Some? && EndsAt(p, at.value)
      ensures verdict == Continue ==> Gave(Next) && p == PastGate(index)
      ensures verdict == Continue ==> transfers == Before(index + 1) && |starts| == |ORDER| * (index + 1)
      ensures verdict == Continue <==>
        ClearBlocks(world, index) && GateSpeaks(world, index) && gates(index).qualified
      ensures p == PastGate(index) || p == Stopped(index) ==>
        ClearBlocks(world, index) && world.signals(BeforeGate(index)) == None
      ensures ClearBlocks(world, index) && world.signals(BeforeGate(index)) == None && gates(index).qualified ==>
        p == PastGate(index)
      ensures verdict.Stop? ==> Gave(Next) && p == Stopped(index) && verdict.code == FailureCode(gates(index))
      ensures p == Stopped(index) ==> !gates(index).qualified
      ensures verdict.Abort? ==> Gave(verdict.step) && verdict.step != Next
      ensures complete <==> p == Stopped(index)
      ensures p == PastGate(index) ==> broken == None
    {
      ghost var block, n;
      var step;
      step, block, n := RunAll(index);
      p := InBlock(index, block, n);
      if step != Next {
        return Abort(step), p;
      }
      verdict, p := PassGate(index);
    }
  }

  lemma BlockDone(w: World, gates: Gates, index: nat, block: nat)
    requires index < |STAGES| && block < |ORDER|
    ensures WithBlock(w, gates, index, block, 5, None) == Opened(w, gates, index, AllDone(w, index, block + 1))
  {
    assert AllDone(w, index, block) + [Done(w, index, block)] == AllDone(w, index, block + 1);
  }

  /** No signal arrives while the gate speaks. */
  ghost predicate GateSpeaks(w: World, index: nat) {
    w.signals(BeforeGate(index)) == None && w.signals(AfterGate(index)) == None
  }

  /** The code of a run that stops at a gate tells a broken contract from a missed threshold. */
  ghost function FailureCode(gate: Gate): int {
    if gate.contract then 2 else 1
  }

  lemma GateIs(w: World, index: nat, gate: Gate)
    requires index < |STAGES|
    requires gate.contract <==> AllTrue(AllDone(w, index, |ORDER|))
    requires gate.qualified <==> AllTrue(AllDone(w, index, |ORDER|)) && Rule(w, index)
    ensures gate == Gate(Contracted(w, index), Qualifies(w, index))
  {
    var blocks := AllDone(w, index, |ORDER|);
    if AllTrue(blocks) {
      forall j | 0 <= j < |ORDER|
        ensures w.contract(index, j)
      {
        assert blocks[j] in blocks;
      }
    }
  }

  /** A gate qualifies exactly on a complete, valid set of blocks whose values meet the thresholds. */
  method Qualify(stage: Stage, controls: seq<Option<real>>, profiles: seq<G.Profile>) returns (gate: Gate)
    requires |stage.blocks| == |ORDER| && InOrder(stage.blocks) && stage.spec.repetitions > 0
    ensures gate.contract <==> AllTrue(stage.blocks)
    ensures gate.qualified <==>
      AllTrue(stage.blocks) && G.Qualifies(controls, G.Comparisons(profiles, stage.spec.repetitions))
  {
    var contract := forall b :: b in stage.blocks ==> b.contract == Some(true);
    if !contract {
      return Gate(false, false);
    }
    var qualified, errors := G.Judge(controls, profiles, stage.spec.repetitions);
    gate := Gate(true, qualified);
  }

  /** The two places between the verdict of the last gate and the report of it. */
  ghost predicate Late(p: Option<Point>) {
    p == Some(AfterGate(2)) || p == Some(BeforeReport)
  }

  /** An interrupted block that has not been analysed shows the interruption's exit code. */
  function Marked(stages: seq<Stage>, code: int): seq<Stage> {
    if stages == [] then stages
    else
      var last := stages[|stages| - 1];
      var n := |last.blocks|;
      if n == 0 || last.blocks[n - 1].contract.Some? then stages
      else stages[|stages| - 1 := last.(blocks := last.blocks[n - 1 := last.blocks[n - 1].(exit := Some(code))])]
  }

  lemma JudgedUnmarked(w: World, gates: Gates, stages: nat, code: int)
    requires stages <= |STAGES|
    ensures Marked(AllJudged(w, gates, stages), code) == AllJudged(w, gates, stages)
  {
  }

  lemma BlockMarked(w: World, gates: Gates, index: nat, block: nat, n: nat, code: int)
    requires index < |STAGES| && block < |ORDER|
    ensures Marked(WithBlock(w, gates, index, block, n, None), code) == WithBlock(w, gates, index, block, n, Some(code))
  {
    var done := AllDone(w, index, block);
    assert (done + [Block(ORDER[block], None, None)])[block := Block(ORDER[block], Some(code), None)]
      == done + [Block(ORDER[block], Some(code), None)];
  }

  lemma MarkedReport(w: World, gates: Gates, p: Place, code: int)
    requires Known(p)
    ensures Marked(Report(w, gates, p, None), code) == Report(w, gates, p, Some(code))
  {
    match p
    case AtOpening(i, begun) => JudgedUnmarked(w, gates, i, code);
    case InBlock(i, j, n) => BlockMarked(w, gates, i, j, n, code);
    case AtGate(i) =>
    case PastGate(i) => JudgedUnmarked(w, gates, i + 1, code);
    case Stopped(i) =>
      if i + 1 < |STAGES| {
        SkippedAre(i + 1, |Skipped(i + 1)| - 1);
      }
    case Reporting => JudgedUnmarked(w, gates, |STAGES|, code);
  }

  /** The run is about to open stage `index`, or to report if that was the last. */
  ghost predicate Onward(run: Run, index: nat)
    reads run
  {
    && run.Gave(Next) && !run.complete && index <= |STAGES| && run.stages == AllJudged(run.world, run.gates, index)
    && run.transfers == Before(index) && |run.starts| == |ORDER| * index && Smooth(run.world, run.gates, index)
    && run.at == if index == 0 then None else Some(AfterGate(index - 1))
  }

  method NextStage(run: Run, index: nat) returns (verdict: Verdict, ghost p: Place)
    requires run.Valid() && index < |STAGES| && Onward(run, index) && AllMeant(run.world, run.gates)
    modifies run`signal, run`stages, run`transfers, run`starts, run`raisedAt, run`at, run`broken, run`complete
    ensures run.Valid() && Left(run, verdict, p, index)
    ensures verdict == Continue ==> Onward(run, index + 1)
  {
    assert Meant(run.world, run.gates, index);
    verdict, p := run.RunStage(index);
  }

  lemma WhereItEnds(w: World, gates: Gates, p: Place, index: nat, passed: bool)
    requires Known(p) && !p.Reporting? && p.stage == index < |STAGES| && Smooth(w, gates, index)
    requires passed <==> Smooth(w, gates, index + 1)
    requires passed ==> p == PastGate(index) && index == |STAGES| - 1
    requires p == PastGate(index) ==> ClearStage(w, index)
    requires ClearStage(w, index) && gates(index).qualified ==> p == PastGate(index)
    requires p == Stopped(index) ==> !gates(index).qualified
    ensures Behind(gates, p) && (passed <==> Smooth(w, gates, |STAGES|))
    ensures p == PastGate(2) && gates(2).qualified <==> SmoothBy(w, gates)
  {
  }

  /** The stages one after another, until one does not continue. */
  method RunStages(world: World, ghost gates: Gates) returns (run: Run, verdict: Verdict, ghost p: Place)
    requires AllMeant(world, gates)
    ensures fresh(run) && run.Valid() && run.world == world && run.gates == gates && !run.qualified && !run.interrupted
    ensures Behind(gates, p) && !p.Reporting? && Left(run, verdict, p, p.stage)
    ensures verdict == Continue ==> Onward(run, |STAGES|)
    ensures verdict == Continue <==> Smooth(world, gates, |STAGES|)
    ensures p == PastGate(2) && gates(2).qualified <==> SmoothBy(world, gates)
  {
    run := new Run(world, gates);
    p, verdict := PastGate(0), Continue;
    var index: nat := 0;
    while index < |STAGES| && verdict == Continue
      invariant index <= |STAGES| && run.Valid() && fresh(run) && !run.qualified && !run.interrupted
      invariant run.world == world && run.gates == gates
      invariant verdict == Continue ==> Onward(run, index)
      invariant index == 0 ==> verdict == Continue
      invariant index > 0 ==> Left(run, verdict, p, index - 1)
      decreases |STAGES| - index
    {
      verdict, p := NextStage(run, index);
      index := index + 1;
    }
    WhereItEnds(world, gates, p, index - 1, verdict == Continue);
  }

  /** The first stages are undisturbed and pass. */
  ghost predicate Smooth(w: World, gates: Gates, stages: nat) {
    forall i :: 0 <= i < stages ==> ClearStage(w, i) && gates(i).qualified && w.signals(AfterGate(i)) == None
  }

  /** How stage `index`, behind smooth ones, left the run. */
  ghost predicate Left(run: Run, verdict: Verdict, p: Place, index: nat)
    reads run
  {
    && Known(p) && !p.Reporting? && p.stage == index && Smooth(run.world, run.gates, index)
    && run.stages == Report(run.world, run.gates, p, None) && run.at.Some? && EndsAt(p, run.at.value)
    && (verdict == Continue <==> Smooth(run.world, run.gates, index + 1))
    && (verdict == Continue ==> p == PastGate(index)) && (p == PastGate(index) ==> ClearStage(run.world, index))
    && (ClearStage(run.world, index) && run.gates(index).qualified ==> p == PastGate(index))
    && (verdict.Stop? ==> run.Gave(Next) && p == Stopped(index) && verdict.code == FailureCode(run.gates(index)))
    && (p == Stopped(index) ==> !run.gates(index).qualified)
    && (verdict.Abort? ==> run.Gave(verdict.step) && verdict.step != Next)
    && (run.complete <==> p.Stopped?) && (p == PastGate(index) ==> run.broken == None)
  }

  /** Nothing disturbs the run before its last gate has spoken, and every gate passes. */
  ghost predicate SmoothBy(w: World, gates: Gates) {
    Smooth(w, gates, |STAGES| - 1) && ClearStage(w, |STAGES| - 1) && gates(|STAGES| - 1).qualified
  }

  /** The same, with what the measurements make the gates say. */
  ghost predicate SmoothRun(w: World) {
    SmoothBy(w, GatesOf(w))
  }

  lemma MeantHonest(w: World, gates: Gates)
    requires AllMeant(w, gates)
    ensures Honest(w, gates)
  {
    forall i | 0 <= i < |STAGES| && gates(i).qualified
      ensures Contracted(w, i)
    {
      assert Meant(w, gates, i);
    }
  }

  /** All gates passed: say so, unless a signal comes first. */
  method Publish(run: Run)
    requires run.Valid() && run.Gave(Next) && !run.qualified && !run.complete && run.at == Some(AfterGate(|STAGES| - 1))
    modifies run`complete, run`qualified, run`signal, run`raisedAt, run`at
    ensures run.Valid() && (run.signal.Some? ==> run.raisedAt == run.at)
    ensures run.qualified == run.complete == run.world.signals(BeforeReport).None?
    ensures run.at == Some(if run.qualified then AfterReport else BeforeReport)
    ensures run.raisedAt == if run.world.signals(run.at.value).Some? then run.at else None
  {
    var raised := run.Tick(BeforeReport);
    if !raised {
      run.complete, run.qualified := true, true;
      raised := run.Tick(AfterReport);
    }
  }

  /** Write the report of the run and the code it ends with. */
  method Conclude(run: Run, verdict: Verdict, ghost p: Place) returns (ending: Ending)
    requires run.Valid() && Known(p) && run.stages == Report(run.world, run.gates, p, None) && !run.interrupted
    requires run.at.Some? && EndsAt(p, run.at.value)
    requires run.signal.Some? ==> run.raisedAt == run.at && run.broken == None
    requires verdict.Abort? ==> run.Gave(verdict.step) && verdict.step != Next
    requires !verdict.Abort? ==> run.broken == None
    modifies run`interrupted, run`stages, run`signal, run`raisedAt, run`at
    ensures run.Valid() && run.at == Some(Finishing)
    ensures run.interrupted == old(run.signal).Some?
    ensures run.interrupted ==> run.signal == old(run.signal) && run.raisedAt == old(run.raisedAt)
    ensures !run.interrupted ==> run.raisedAt == None || run.raisedAt == Some(Finishing)
    ensures run.stages == Report(run.world, run.gates, p, if run.interrupted then Some(128 + run.signal.value) else None)
    ensures ending == Thrown <==>
      run.broken.Some? || (!run.interrupted && run.raisedAt == Some(Finishing)) || !run.world.works(Finishing)
    ensures ending.Returned? && run.interrupted ==> ending.code == 128 + run.signal.value
    ensures ending.Returned? && !run.interrupted ==>
      !verdict.Abort? && ending.code == if verdict == Continue then 0 else verdict.code
  {
    if run.signal.Some? {
      run.interrupted := true;
      var code := 128 + run.signal.value;
      MarkedReport(run.world, run.gates, p, code);
      run.stages := Marked(run.stages, code);
      ending := Returned(code);
    } else if verdict.Abort? {
      ending := Thrown;
    } else {
      ending := Returned(if verdict == Continue then 0 else verdict.code);
    }
    var raised := run.Tick(Finishing);
    if raised || !run.world.works(Finishing) {
      ending := Thrown;
    }
  }

  /** The run, with what its gates say. */
  method RunWith(world: World, ghost gates: Gates) returns (run: Run, ending: Ending, ghost p: Place)
    requires Honest(world, gates) && AllMeant(world, gates)
    ensures run.Valid() && run.world == world && Behind(gates, p)
    ensures run.interrupted <==> run.raisedAt.Some? && run.raisedAt != Some(Finishing)
    ensures run.interrupted ==> run.signal.Some? && EndsAt(p, run.raisedAt.value)
    ensures run.broken.Some? ==> EndsAt(p, run.broken.value) && !run.interrupted
    ensures run.stages == Report(world, gates, p, if run.interrupted then Some(128 + run.signal.value) else None)
    ensures p == Reporting || (p == PastGate(2) && gates(2).qualified) <==> SmoothBy(world, gates)
    ensures run.qualified <==> SmoothBy(world, gates) && !Late(run.raisedAt)
    ensures run.qualified <==>
      SmoothBy(world, gates) && world.signals(AfterGate(2)) == None && world.signals(BeforeReport) == None
    ensures run.qualified ==> run.transfers == 104 && |run.starts| == |ORDER| * |STAGES|
    ensures run.complete <==> run.qualified || p.Stopped?
    ensures ending == Thrown <==> run.broken.Some? || run.raisedAt == Some(Finishing) || !world.works(Finishing)
    ensures ending.Returned? && run.interrupted ==> ending.code == 128 + run.signal.value
    ensures ending.Returned? && run.qualified && !run.interrupted ==> ending.code == 0
    ensures ending.Returned? && !run.interrupted && !run.qualified ==>
      p.Stopped? && ending.code == FailureCode(gates(p.stage))
  {
    var verdict;
    run, verdict, p := RunStages(world, gates);
    if verdict == Continue {
      p := Reporting;
      Publish(run);
    }
    ending := Conclude(run, verdict, p);
  }

  /**
   * A whole qualification. Whatever the blocks do and wherever a signal comes: stages start only behind
   * passed gates, no driver starts after a recorded interruption, at most 104 transfers are planned, and
   * the report says qualified exactly when all gates passed and the signal did not arrive between the
   * last gate and the report. Report and exit code are determined by the place `p` where the run ends.
   */
  method RunBlocks(world: World) returns (run: Run, ending: Ending, ghost p: Place)
    ensures run.Valid() && run.world == world && Behind(GatesOf(world), p)
    ensures run.interrupted <==> run.raisedAt.Some? && run.raisedAt != Some(Finishing)
    ensures run.interrupted ==> run.signal.Some? && EndsAt(p, run.raisedAt.value)
    ensures run.broken.Some? ==> EndsAt(p, run.broken.value) && !run.interrupted
    ensures run.stages == Report(world, GatesOf(world), p, if run.interrupted then Some(128 + run.signal.value) else None)
    ensures Gated(run.stages) && (AllPassed(run.stages) <==> SmoothRun(world))
    ensures run.qualified <==> AllPassed(run.stages) && !Late(run.raisedAt)
    ensures run.qualified <==>
      SmoothRun(world) && world.signals(AfterGate(2)) == None && world.signals(BeforeReport) == None
    ensures run.qualified ==> run.transfers == 104 && |run.starts| == |ORDER| * |STAGES|
    ensures run.complete <==> run.qualified || p.Stopped?
    ensures ending == Thrown <==> run.broken.Some? || run.raisedAt == Some(Finishing) || !world.works(Finishing)
    ensures ending.Returned? && run.interrupted ==> ending.code == 128 + run.signal.value
    ensures ending.Returned? && run.qualified && !run.interrupted ==> ending.code == 0
    ensures ending.Returned? && !run.interrupted && !run.qualified ==>
      p.Stopped? && ending.code == FailureCode(GatesOf(world)(p.stage))
  {
    ghost var gates := GatesOf(world);
    MeantHonest(world, gates);
    run, ending, p := RunWith(world, gates);
    ReportGated(world, gates, p, if run.interrupted then Some(128 + run.signal.value) else None);
  }

  /** A world in which all gates pass and one signal arrives right after the last of them. */
  function MissingWorld(): World {
    World(
      p => if p == AfterGate(2) then Some(15) else None,
      _ => true,
      (_, _) => Exit(0),
      (_, _) => false,
      (_, _) => true,
      _ => G.EqualControls(),
      (i: nat) => G.OpposedProfiles(if i < |STAGES| then STAGES[i].repetitions else 1))
  }

  lemma MissingWorldMeets(index: nat)
    requires index < |STAGES|
    ensures Rule(MissingWorld(), index)
  {
    G.Forwards(STAGES[index].repetitions);
  }

  lemma MissingStage(index: nat)
    requires index < |STAGES|
    ensures ClearStage(MissingWorld(), index) && Contracted(MissingWorld(), index)
  {
  }

  lemma MissingWorldSmooth()
    ensures SmoothRun(MissingWorld())
  {
    var w, gates := MissingWorld(), GatesOf(MissingWorld());
    forall i | 0 <= i < |STAGES|
      ensures ClearStage(w, i) && gates(i).qualified
    {
      MissingStage(i);
      MissingWorldMeets(i);
    }
    assert w.signals(AfterGate(0)) == None && w.signals(AfterGate(1)) == None;
  }

  /** A run that ends with every gate passed and a report that does not say qualified. */
  method MissedQualification() returns (run: Run, ending: Ending)
    ensures AllPassed(run.stages) && !run.qualified && run.interrupted
  {
    MissingWorldSmooth();
    ghost var p;
    run, ending, p := RunBlocks(MissingWorld());
  }
}
