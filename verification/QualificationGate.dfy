/** The gate of a qualification stage: candidate against baseline, profile by profile, on medians. */
module QualificationGate {
  import opened Common
  import D = Distribution

  const MINIMUM_RATE: real := 0.95
  const MAXIMUM_CPU: real := 1.05
  const IMPROVED_RATE: real := 1.05
  const IMPROVED_CPU: real := 0.95
  const MAXIMUM_SPREAD: real := 1.15

  /** One measurement; `None` stands for a missing value or one that is not a positive number. */
  datatype Row = Row(mbps: Option<real>, sender: Option<real>, total: Option<real>)

  datatype Medians = Medians(mbps: real, sender: real, total: real)

  datatype Profile = Profile(baseline: seq<Row>, candidate: seq<Row>)

  datatype Metric = Rate | SenderCpu | TotalCpu

  function Value(r: Row, m: Metric): Option<real> {
    match m
    case Rate => r.mbps
    case SenderCpu => r.sender
    case TotalCpu => r.total
  }

  predicate Positive(v: Option<real>) {
    v.Some? && v.value > 0.0
  }

  predicate Usable(r: Row) {
    Positive(Value(r, Rate)) && Positive(Value(r, SenderCpu)) && Positive(Value(r, TotalCpu))
  }

  /** Both blocks of a variant contributed every repetition, with usable metrics. */
  predicate Complete(rows: seq<Row>, repetitions: nat) {
    |rows| == 2 * repetitions && forall i :: 0 <= i < |rows| ==> Usable(rows[i])
  }

  // ---------------------------------------------------------------- medians

  /** The middle value of a sequence in order, or the mean of the two middle values. */
  function Middle(s: seq<real>): real
    requires s != []
  {
    var n := |s|;
    if n % 2 == 1 then s[n / 2] else (s[n / 2 - 1] + s[n / 2]) / 2.0
  }

  function Median(values: seq<real>): real
    requires values != []
  {
    D.SortedSorts(values);
    Middle(D.Sorted(values))
  }

  lemma HalfPosition(n: nat)
    requires n > 0
    ensures D.Position(n, 0.5).Floor == (n - 1) / 2
    ensures D.Position(n, 0.5) - ((n - 1) / 2) as real == if n % 2 == 1 then 0.0 else 0.5
  {
  }

  lemma MiddleIsHalfway(s: seq<real>)
    requires s != [] && 0.0 <= D.Position(|s|, 0.5) <= (|s| - 1) as real
    ensures D.At(s, D.Position(|s|, 0.5)) == Middle(s)
  {
    HalfPosition(|s|);
  }

  /** The median is the 50th percentile, for every number of samples. */
  lemma MedianIsP50(values: seq<real>)
    requires values != []
    ensures D.Percentile(values, 0.5) == D.Ok(Median(values))
  {
    D.SortedSorts(values);
    D.PositionBounds(|values|, 0.5);
    D.FormsAgree(D.Sorted(values), D.Position(|values|, 0.5));
    MiddleIsHalfway(D.Sorted(values));
  }

  lemma MedianPositive(values: seq<real>)
    requires values != [] && forall i :: 0 <= i < |values| ==> values[i] > 0.0
    ensures Median(values) > 0.0
  {
    D.SortedSorts(values);
    MedianIsP50(values);
    D.PercentileOrdered(values, 0.5, 0.5);
    var least := D.Sorted(values)[0];
    assert least in multiset(values);
    assert least in values;
  }

  function Values(rows: seq<Row>, m: Metric): (r: seq<real>)
    requires forall i :: 0 <= i < |rows| ==> Usable(rows[i])
    ensures |r| == |rows| && forall i :: 0 <= i < |r| ==> Value(rows[i], m) == Some(r[i]) && r[i] > 0.0
  {
    seq(|rows|, i requires 0 <= i < |rows| && Usable(rows[i]) => Value(rows[i], m).value)
  }

  /** The candidate's medians over the baseline's. */
  datatype Ratios = Ratios(rate: real, sender: real, total: real)

  function Ratio(p: Profile, m: Metric): (r: real)
    requires p.baseline != [] && (forall i :: 0 <= i < |p.baseline| ==> Usable(p.baseline[i]))
    requires p.candidate != [] && (forall i :: 0 <= i < |p.candidate| ==> Usable(p.candidate[i]))
    ensures r > 0.0
  {
    MedianPositive(Values(p.candidate, m));
    MedianPositive(Values(p.baseline, m));
    Median(Values(p.candidate, m)) / Median(Values(p.baseline, m))
  }

  /** Nothing to compare unless both variants are complete. */
  function Compare(p: Profile, repetitions: nat): (c: Option<Ratios>)
    requires repetitions > 0
    ensures c.Some? <==> Complete(p.baseline, repetitions) && Complete(p.candidate, repetitions)
    ensures c.Some? ==> c.value.rate > 0.0 && c.value.sender > 0.0 && c.value.total > 0.0
  {
    if Complete(p.baseline, repetitions) && Complete(p.candidate, repetitions)
    then Some(Ratios(Ratio(p, Rate), Ratio(p, SenderCpu), Ratio(p, TotalCpu)))
    else None
  }

  // ---------------------------------------------------------------- the rule

  /** Nothing got worse by more than five percent. */
  predicate Kept(c: Option<Ratios>) {
    c.Some? && c.value.rate >= MINIMUM_RATE && c.value.sender <= MAXIMUM_CPU && c.value.total <= MAXIMUM_CPU
  }

  /** Throughput or total processor time got better by at least five percent. */
  predicate Improves(c: Option<Ratios>) {
    c.Some? && (c.value.rate >= IMPROVED_RATE || c.value.total <= IMPROVED_CPU)
  }

  predicate Measured(controls: seq<Option<real>>) {
    |controls| == 8 && forall i :: 0 <= i < |controls| ==> Positive(controls[i])
  }

  /** Eight positive controls, no two of them more than fifteen percent apart. */
  ghost predicate Steady(controls: seq<Option<real>>) {
    && Measured(controls)
    && (forall i, j :: 0 <= i < |controls| && 0 <= j < |controls| ==>
      controls[i].value <= MAXIMUM_SPREAD * controls[j].value)
  }

  ghost predicate Qualifies(controls: seq<Option<real>>, comparisons: seq<Option<Ratios>>) {
    && Steady(controls)
    && (forall i :: 0 <= i < |comparisons| ==> Kept(comparisons[i]))
    && (exists i :: 0 <= i < |comparisons| && Improves(comparisons[i]))
  }

  function Comparisons(profiles: seq<Profile>, repetitions: nat): seq<Option<Ratios>>
    requires repetitions > 0
  {
    seq(|profiles|, i requires 0 <= i < |profiles| => Compare(profiles[i], repetitions))
  }

  // ---------------------------------------------------------------- the gate

  datatype Error = Controls | Spread | Missing | RateRegression | CpuRegression | NoImprovement

  lemma SpreadBound(greatest: real, least: real)
    requires least > 0.0
    ensures greatest / least > MAXIMUM_SPREAD <==> greatest > MAXIMUM_SPREAD * least
  {
  }

  method CheckControls(controls: seq<Option<real>>) returns (errors: seq<Error>)
    ensures errors == [] <==> Steady(controls)
    ensures errors != [] ==> errors == [if Measured(controls) then Spread else Controls]
  {
    if !Measured(controls) {
      return [Controls];
    }
    var values := seq(8, i requires 0 <= i < 8 => controls[i].value);
    var least, greatest := D.Extremes(values);
    SpreadBound(greatest, least);
    errors := if greatest / least > MAXIMUM_SPREAD then [Spread] else [];
    if errors == [] {
      forall i, j | 0 <= i < 8 && 0 <= j < 8
        ensures controls[i].value <= MAXIMUM_SPREAD * controls[j].value
      {
        assert values[i] in values && values[j] in values;
      }
    } else {
      var i :| 0 <= i < 8 && values[i] == greatest;
      var j :| 0 <= j < 8 && values[j] == least;
      assert !(controls[i].value <= MAXIMUM_SPREAD * controls[j].value);
    }
  }

  /** What is wrong with one profile, in the order of the report. */
  ghost function Faults(c: Option<Ratios>): seq<Error> {
    if c == None then [Missing]
    else
      (if c.value.rate >= MINIMUM_RATE then [] else [RateRegression])
      + (if c.value.sender <= MAXIMUM_CPU && c.value.total <= MAXIMUM_CPU then [] else [CpuRegression])
  }

  ghost function AllFaults(cs: seq<Option<Ratios>>): seq<Error> {
    if cs == [] then [] else AllFaults(cs[..|cs| - 1]) + Faults(cs[|cs| - 1])
  }

  method CheckProfile(c: Option<Ratios>) returns (errors: seq<Error>, improved: bool)
    ensures errors == [] <==> Kept(c)
    ensures improved <==> Improves(c)
    ensures errors == Faults(c)
  {
    errors, improved := [], false;
    if c == None {
      return [Missing], false;
    }
    if c.value.rate < MINIMUM_RATE {
      errors := errors + [RateRegression];
    }
    if c.value.sender > MAXIMUM_CPU || c.value.total > MAXIMUM_CPU {
      errors := errors + [CpuRegression];
    }
    improved := c.value.rate >= IMPROVED_RATE || c.value.total <= IMPROVED_CPU;
  }

  method CheckProfiles(comparisons: seq<Option<Ratios>>) returns (errors: seq<Error>, improved: bool)
    ensures errors == [] <==> forall i :: 0 <= i < |comparisons| ==> Kept(comparisons[i])
    ensures improved <==> exists i :: 0 <= i < |comparisons| && Improves(comparisons[i])
    ensures errors == AllFaults(comparisons)
  {
    errors, improved := [], false;
    for k := 0 to |comparisons|
      invariant errors == AllFaults(comparisons[..k])
      invariant errors == [] <==> forall i :: 0 <= i < k ==> Kept(comparisons[i])
      invariant improved <==> exists i :: 0 <= i < k && Improves(comparisons[i])
    {
      var found, better := CheckProfile(comparisons[k]);
      assert comparisons[..k + 1][..k] == comparisons[..k];
      errors := errors + found;
      improved := improved || better;
    }
    assert comparisons[..|comparisons|] == comparisons;
  }

  /** The gate finds no error exactly when the stage qualifies. */
  method Judge(controls: seq<Option<real>>, profiles: seq<Profile>, repetitions: nat)
    returns (qualified: bool, errors: seq<Error>)
    requires repetitions > 0
    ensures qualified <==> Qualifies(controls, Comparisons(profiles, repetitions))
    ensures qualified <==> errors == []
    ensures
      var cs := Comparisons(profiles, repetitions);
      errors == (if Steady(controls) then [] else [if Measured(controls) then Spread else Controls]) + AllFaults(cs)
        + if exists i :: 0 <= i < |cs| && Improves(cs[i]) then [] else [NoImprovement]
  {
    errors := CheckControls(controls);
    var found, improved := CheckProfiles(Comparisons(profiles, repetitions));
    errors := errors + found;
    if !improved {
      errors := errors + [NoImprovement];
    }
    qualified := errors == [];
  }

  /** The sender's own processor time can spoil a profile but never improve it; total time can do both. */
  lemma SenderTimeNeverImproves(rate: real, sender: real, other: real, total: real)
    ensures Improves(Some(Ratios(rate, sender, total))) <==> Improves(Some(Ratios(rate, other, total)))
    ensures total <= IMPROVED_CPU ==> Improves(Some(Ratios(rate, sender, total)))
    ensures Kept(Some(Ratios(rate, sender, total))) ==> sender <= MAXIMUM_CPU
  {
  }

  /** At least as fast, with no more processor time. */
  ghost predicate AtLeast(c: Option<Ratios>, d: Option<Ratios>) {
    c.Some? ==>
      d.Some? && d.value.rate >= c.value.rate && d.value.sender <= c.value.sender && d.value.total <= c.value.total
  }

  /** Better measurements never lose a qualification. */
  lemma BetterStillQualifies(controls: seq<Option<real>>, cs: seq<Option<Ratios>>, ds: seq<Option<Ratios>>)
    requires Qualifies(controls, cs) && |ds| == |cs| && forall i :: 0 <= i < |cs| ==> AtLeast(cs[i], ds[i])
    ensures Qualifies(controls, ds)
  {
    var i :| 0 <= i < |cs| && Improves(cs[i]);
    assert AtLeast(cs[i], ds[i]) && Improves(ds[i]);
  }

  // ---------------------------------------------------------------- swapping the variants

  function Swapped(p: Profile): Profile {
    Profile(p.candidate, p.baseline)
  }

  function Inverted(c: Option<Ratios>): Option<Ratios>
    requires c.Some? ==> c.value.rate > 0.0 && c.value.sender > 0.0 && c.value.total > 0.0
  {
    if c == None then None else Some(Ratios(1.0 / c.value.rate, 1.0 / c.value.sender, 1.0 / c.value.total))
  }

  lemma Inverse(a: real, b: real)
    requires a > 0.0 && b > 0.0
    ensures b / a == 1.0 / (a / b)
  {
  }

  lemma RatioSwapped(p: Profile, m: Metric)
    requires p.baseline != [] && (forall i :: 0 <= i < |p.baseline| ==> Usable(p.baseline[i]))
    requires p.candidate != [] && (forall i :: 0 <= i < |p.candidate| ==> Usable(p.candidate[i]))
    ensures Ratio(Swapped(p), m) == 1.0 / Ratio(p, m)
  {
    MedianPositive(Values(p.candidate, m));
    MedianPositive(Values(p.baseline, m));
    Inverse(Median(Values(p.candidate, m)), Median(Values(p.baseline, m)));
  }

  /** Swapping baseline and candidate inverts every ratio. */
  lemma CompareSwapped(p: Profile, repetitions: nat)
    requires repetitions > 0
    ensures Compare(Swapped(p), repetitions) == Inverted(Compare(p, repetitions))
  {
    if Complete(p.baseline, repetitions) && Complete(p.candidate, repetitions) {
      RatioSwapped(p, Rate);
      RatioSwapped(p, SenderCpu);
      RatioSwapped(p, TotalCpu);
    }
  }

  lemma Reciprocal(x: real, bound: real)
    requires x > 0.0
    ensures 1.0 / x >= bound <==> x * bound <= 1.0
    ensures 1.0 / x <= bound <==> x * bound >= 1.0
  {
  }

  /** Two comparisons of the same profile, with the variants swapped. */
  ghost predicate Flipped(c: Option<Ratios>, d: Option<Ratios>) {
    && (c.Some? ==> c.value.rate > 0.0 && c.value.sender > 0.0 && c.value.total > 0.0)
    && d == Inverted(c)
  }

  /** Neither direction is a regression: every ratio lies in its band. */
  predicate Banded(r: Ratios) {
    && MINIMUM_RATE <= r.rate && r.rate * MINIMUM_RATE <= 1.0
    && r.sender <= MAXIMUM_CPU && r.sender * MAXIMUM_CPU >= 1.0
    && r.total <= MAXIMUM_CPU && r.total * MAXIMUM_CPU >= 1.0
  }

  /** Within the bands only the rate can improve, and only one way; processor time never decides. */
  lemma BandedBothWays(c: Option<Ratios>)
    requires c.Some? && c.value.rate > 0.0 && c.value.sender > 0.0 && c.value.total > 0.0
    ensures Kept(c) && Kept(Inverted(c)) <==> Banded(c.value)
    ensures Banded(c.value) ==> (Improves(c) <==> c.value.rate >= IMPROVED_RATE)
    ensures Banded(c.value) ==> (Improves(Inverted(c)) <==> c.value.rate * IMPROVED_RATE <= 1.0)
  {
    Reciprocal(c.value.rate, MINIMUM_RATE);
    Reciprocal(c.value.sender, MAXIMUM_CPU);
    Reciprocal(c.value.total, MAXIMUM_CPU);
    Reciprocal(c.value.rate, IMPROVED_RATE);
    Reciprocal(c.value.total, IMPROVED_CPU);
  }

  /** Steady controls, all ratios in their bands, one rate up by five percent and one down by as much. */
  ghost predicate Opposed(controls: seq<Option<real>>, cs: seq<Option<Ratios>>) {
    && Steady(controls)
    && (forall i :: 0 <= i < |cs| ==> cs[i].Some? && Banded(cs[i].value))
    && (exists i :: 0 <= i < |cs| && cs[i].Some? && cs[i].value.rate >= IMPROVED_RATE)
    && (exists j :: 0 <= j < |cs| && cs[j].Some? && cs[j].value.rate * IMPROVED_RATE <= 1.0)
  }

  lemma BothWaysRatios(controls: seq<Option<real>>, cs: seq<Option<Ratios>>, inverted: seq<Option<Ratios>>)
    requires |inverted| == |cs| && forall i :: 0 <= i < |cs| ==> Flipped(cs[i], inverted[i])
    ensures Qualifies(controls, cs) && Qualifies(controls, inverted) <==> Opposed(controls, cs)
  {
    forall i | 0 <= i < |cs| && cs[i].Some?
      ensures Kept(cs[i]) && Kept(inverted[i]) <==> Banded(cs[i].value)
      ensures Banded(cs[i].value) ==> (Improves(cs[i]) <==> cs[i].value.rate >= IMPROVED_RATE)
      ensures Banded(cs[i].value) ==> (Improves(inverted[i]) <==> cs[i].value.rate * IMPROVED_RATE <= 1.0)
    {
      assert Flipped(cs[i], inverted[i]);
      BandedBothWays(cs[i]);
    }
  }

  function SwapAll(profiles: seq<Profile>): seq<Profile> {
    seq(|profiles|, i requires 0 <= i < |profiles| => Swapped(profiles[i]))
  }

  /** Exactly when a stage qualifies with either variant as the candidate. */
  lemma BothWaysIff(controls: seq<Option<real>>, profiles: seq<Profile>, repetitions: nat)
    requires repetitions > 0
    ensures
      var cs, inverted := Comparisons(profiles, repetitions), Comparisons(SwapAll(profiles), repetitions);
      Qualifies(controls, cs) && Qualifies(controls, inverted) <==> Opposed(controls, cs)
  {
    var cs, inverted := Comparisons(profiles, repetitions), Comparisons(SwapAll(profiles), repetitions);
    forall i | 0 <= i < |cs|
      ensures Flipped(cs[i], inverted[i])
    {
      CompareSwapped(profiles[i], repetitions);
    }
    BothWaysRatios(controls, cs, inverted);
  }

  // ---------------------------------------------------------------- an input that qualifies both ways

  /** Every repetition of a variant measured the same. */
  function Repeated(row: Row, repetitions: nat): (rows: seq<Row>)
    requires Usable(row)
    ensures Complete(rows, repetitions)
    ensures forall i :: 0 <= i < |rows| ==> rows[i] == row
  {
    seq(2 * repetitions, _ => row)
  }

  function Uniform(mbps: real, repetitions: nat): (rows: seq<Row>)
    requires mbps > 0.0
    ensures Complete(rows, repetitions)
  {
    Repeated(Row(Some(mbps), Some(1.0), Some(1.0)), repetitions)
  }

  lemma UniformMedian(values: seq<real>, v: real)
    requires values != [] && forall i :: 0 <= i < |values| ==> values[i] == v
    ensures Median(values) == v
  {
    assert values[0] in values;
    D.ExtremesOfSorted(values, v, v);
    MedianIsP50(values);
    D.PercentileOrdered(values, 0.5, 0.5);
  }

  /** Of constant measurements, each ratio is the candidate's value over the baseline's, metric by metric. */
  lemma RepeatedRatios(b: Row, c: Row, repetitions: nat)
    requires Usable(b) && Usable(c) && repetitions > 0
    ensures Compare(Profile(Repeated(b, repetitions), Repeated(c, repetitions)), repetitions)
      == Some(Ratios(c.mbps.value / b.mbps.value, c.sender.value / b.sender.value, c.total.value / b.total.value))
  {
    var p := Profile(Repeated(b, repetitions), Repeated(c, repetitions));
    UniformMedian(Values(p.baseline, Rate), b.mbps.value);
    UniformMedian(Values(p.candidate, Rate), c.mbps.value);
    UniformMedian(Values(p.baseline, SenderCpu), b.sender.value);
    UniformMedian(Values(p.candidate, SenderCpu), c.sender.value);
    UniformMedian(Values(p.baseline, TotalCpu), b.total.value);
    UniformMedian(Values(p.candidate, TotalCpu), c.total.value);
  }

  lemma UniformRatios(baseline: real, candidate: real, repetitions: nat)
    requires baseline > 0.0 && candidate > 0.0 && repetitions > 0
    ensures Compare(Profile(Uniform(baseline, repetitions), Uniform(candidate, repetitions)), repetitions)
      == Some(Ratios(candidate / baseline, 1.0, 1.0))
  {
    RepeatedRatios(Row(Some(baseline), Some(1.0), Some(1.0)), Row(Some(candidate), Some(1.0), Some(1.0)), repetitions);
  }

  /** Eight equal controls. */
  function EqualControls(): (controls: seq<Option<real>>)
    ensures Steady(controls)
  {
    seq(8, _ => Some(1.0))
  }

  /** One profile five percent faster, the other five percent slower. */
  function OpposedProfiles(repetitions: nat): seq<Profile> {
    [Profile(Uniform(20.0, repetitions), Uniform(21.0, repetitions)),
     Profile(Uniform(20.0, repetitions), Uniform(19.0, repetitions))]
  }

  lemma RatiosQualify(cs: seq<Option<Ratios>>, first: real, second: real)
    requires cs == [Some(Ratios(first, 1.0, 1.0)), Some(Ratios(second, 1.0, 1.0))]
    requires first >= MINIMUM_RATE && second >= MINIMUM_RATE && (first >= IMPROVED_RATE || second >= IMPROVED_RATE)
    ensures Qualifies(EqualControls(), cs)
  {
    assert Improves(cs[0]) || Improves(cs[1]);
  }

  lemma PairQualifies(p: Profile, q: Profile, first: real, second: real, repetitions: nat)
    requires repetitions > 0
    requires Compare(p, repetitions) == Some(Ratios(first, 1.0, 1.0))
    requires Compare(q, repetitions) == Some(Ratios(second, 1.0, 1.0))
    requires first >= MINIMUM_RATE && second >= MINIMUM_RATE && (first >= IMPROVED_RATE || second >= IMPROVED_RATE)
    ensures Qualifies(EqualControls(), Comparisons([p, q], repetitions))
  {
    RatiosQualify(Comparisons([p, q], repetitions), first, second);
  }

  /** Measurements on which the gate qualifies the candidate, and the baseline against it. */
  lemma BothWaysExample(repetitions: nat)
    requires repetitions > 0
    ensures Qualifies(EqualControls(), Comparisons(OpposedProfiles(repetitions), repetitions))
    ensures Qualifies(EqualControls(), Comparisons(SwapAll(OpposedProfiles(repetitions)), repetitions))
  {
    Forwards(repetitions);
    Backwards(repetitions);
    var slow, base, fast := Uniform(19.0, repetitions), Uniform(20.0, repetitions), Uniform(21.0, repetitions);
    assert SwapAll(OpposedProfiles(repetitions)) == [Profile(fast, base), Profile(slow, base)];
  }

  lemma Forwards(repetitions: nat)
    requires repetitions > 0
    ensures Qualifies(EqualControls(), Comparisons(OpposedProfiles(repetitions), repetitions))
  {
    var slow, base, fast := Uniform(19.0, repetitions), Uniform(20.0, repetitions), Uniform(21.0, repetitions);
    UniformRatios(20.0, 21.0, repetitions);
    UniformRatios(20.0, 19.0, repetitions);
    PairQualifies(Profile(base, fast), Profile(base, slow), 21.0 / 20.0, 19.0 / 20.0, repetitions);
  }

  lemma Backwards(repetitions: nat)
    requires repetitions > 0
    ensures
      var slow, base, fast := Uniform(19.0, repetitions), Uniform(20.0, repetitions), Uniform(21.0, repetitions);
      Qualifies(EqualControls(), Comparisons([Profile(fast, base), Profile(slow, base)], repetitions))
  {
    var slow, base, fast := Uniform(19.0, repetitions), Uniform(20.0, repetitions), Uniform(21.0, repetitions);
    UniformRatios(21.0, 20.0, repetitions);
    UniformRatios(19.0, 20.0, repetitions);
    PairQualifies(Profile(fast, base), Profile(slow, base), 20.0 / 21.0, 20.0 / 19.0, repetitions);
  }
}
