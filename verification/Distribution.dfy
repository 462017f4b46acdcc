/** Percentiles and distributions of completion times, as the peer and the scorecard compute them. */
module Distribution {

  datatype Result<T> = Ok(value: T) | Err

  predicate Ascending(s: seq<real>) {
    forall i, j :: 0 <= i < j < |s| ==> s[i] <= s[j]
  }

  function Insert(x: real, s: seq<real>): seq<real> {
    if s == [] || x <= s[0] then [x] + s else [s[0]] + Insert(x, s[1..])
  }

  function Sorted(values: seq<real>): seq<real> {
    if values == [] then [] else Insert(values[0], Sorted(values[1..]))
  }

  lemma {:induction false} InsertKeeps(x: real, s: seq<real>)
    ensures multiset(Insert(x, s)) == multiset(s) + multiset{x}
    ensures |Insert(x, s)| == |s| + 1
  {
    if s != [] && x > s[0] {
      InsertKeeps(x, s[1..]);
      assert s == [s[0]] + s[1..];
    }
  }

  lemma {:induction false} InsertSorts(x: real, s: seq<real>)
    requires Ascending(s)
    ensures Ascending(Insert(x, s))
  {
    if s != [] && x > s[0] {
      var rest := Insert(x, s[1..]);
      InsertSorts(x, s[1..]);
      InsertKeeps(x, s[1..]);
      forall j | 0 <= j < |rest|
        ensures s[0] <= rest[j]
      {
        assert rest[j] in multiset(rest);
      }
    }
  }

  lemma {:induction false} SortedSorts(values: seq<real>)
    ensures Ascending(Sorted(values)) && multiset(Sorted(values)) == multiset(values)
    ensures |Sorted(values)| == |values|
  {
    if values != [] {
      SortedSorts(values[1..]);
      InsertSorts(values[0], Sorted(values[1..]));
      InsertKeeps(values[0], Sorted(values[1..]));
      assert values == [values[0]] + values[1..];
    }
  }

  // ---------------------------------------------------------------- the two percentile forms

  function Position(n: nat, quantile: real): real
    requires n > 0
  {
    (n - 1) as real * quantile
  }

  function Blend(low: real, high: real, fraction: real): real {
    low + (high - low) * fraction
  }

  lemma PositionBounds(n: nat, quantile: real)
    requires n > 0 && 0.0 <= quantile <= 1.0
    ensures 0.0 <= Position(n, quantile) <= (n - 1) as real
  {
    Scaled((n - 1) as real, quantile);
  }

  lemma Scaled(a: real, q: real)
    requires a >= 0.0 && 0.0 <= q <= 1.0
    ensures 0.0 <= a * q <= a
  {
  }

  lemma BlendBounds(low: real, high: real, fraction: real)
    requires low <= high && 0.0 <= fraction <= 1.0
    ensures low <= Blend(low, high, fraction) <= high
  {
    var width := high - low;
    Scaled(width, fraction);
    var share := width * fraction;
    assert Blend(low, high, fraction) == low + share;
  }

  /** Linear interpolation between the neighbours of a position in an ascending sequence. */
  function At(s: seq<real>, position: real): real
    requires s != [] && 0.0 <= position <= (|s| - 1) as real
  {
    var lower := position.Floor;
    if lower as real == position then s[lower] else Blend(s[lower], s[lower + 1], position - lower as real)
  }

  lemma AtBetween(s: seq<real>, position: real)
    requires s != [] && 0.0 <= position <= (|s| - 1) as real && Ascending(s)
    ensures s[position.Floor] <= At(s, position)
    ensures position.Floor + 1 < |s| ==> At(s, position) <= s[position.Floor + 1]
    ensures s[0] <= At(s, position) <= s[|s| - 1]
  {
    var lower := position.Floor;
    if lower as real != position {
      BlendBounds(s[lower], s[lower + 1], position - lower as real);
    }
  }

  lemma BlendMonotone(low: real, high: real, a: real, b: real)
    requires low <= high && a <= b
    ensures Blend(low, high, a) <= Blend(low, high, b)
  {
  }

  /** A later position never gives a smaller value. */
  lemma AtMonotone(s: seq<real>, a: real, b: real)
    requires s != [] && 0.0 <= a <= b <= (|s| - 1) as real && Ascending(s)
    ensures At(s, a) <= At(s, b)
  {
    AtBetween(s, a);
    AtBetween(s, b);
    if a.Floor == b.Floor {
      if a.Floor as real != b {
        BlendMonotone(s[a.Floor], s[a.Floor + 1], a - a.Floor as real, b - b.Floor as real);
        assert Blend(s[a.Floor], s[a.Floor + 1], 0.0) == s[a.Floor];
      }
    } else {
      assert a.Floor + 1 <= b.Floor;
    }
  }

  function Ceiling(position: real): int {
    -(-position).Floor
  }

  /** The scorecard's form: an exact hit is taken as it is, otherwise floor and ceiling are blended. */
  function ScorecardAt(s: seq<real>, position: real): real
    requires s != [] && 0.0 <= position <= (|s| - 1) as real
  {
    var lower, upper := position.Floor, Ceiling(position);
    if lower == upper then s[lower] else Blend(s[lower], s[upper], position - lower as real)
  }

  /** The peer's form: always blended with the next element, clamped to the last one. */
  function PeerAt(s: seq<real>, position: real): real
    requires s != [] && 0.0 <= position <= (|s| - 1) as real
  {
    var lower := position.Floor;
    var upper := if lower + 1 <= |s| - 1 then lower + 1 else |s| - 1;
    Blend(s[lower], s[upper], position - lower as real)
  }

  /** Both programs interpolate the same value at every position. */
  lemma FormsAgree(s: seq<real>, position: real)
    requires s != [] && 0.0 <= position <= (|s| - 1) as real
    ensures ScorecardAt(s, position) == PeerAt(s, position) == At(s, position)
  {
  }

  function Percentile(values: seq<real>, quantile: real): Result<real> {
    if values == [] || !(0.0 <= quantile <= 1.0) then Err
    else
      SortedSorts(values);
      PositionBounds(|values|, quantile);
      Ok(ScorecardAt(Sorted(values), Position(|values|, quantile)))
  }

  /** Percentiles lie between the extremes of the samples and grow with the quantile. */
  lemma PercentileOrdered(values: seq<real>, p: real, q: real)
    requires values != [] && 0.0 <= p <= q <= 1.0
    ensures Percentile(values, p).Ok? && Percentile(values, q).Ok? && |Sorted(values)| == |values|
    ensures Sorted(values)[0] <= Percentile(values, p).value <= Percentile(values, q).value
    ensures Percentile(values, q).value <= Sorted(values)[|values| - 1]
  {
    var s, n := Sorted(values), |values|;
    SortedSorts(values);
    PositionBounds(n, p);
    PositionBounds(n, q);
    PositionGrows(n, p, q);
    FormsAgree(s, Position(n, p));
    FormsAgree(s, Position(n, q));
    AtBetween(s, Position(n, p));
    AtBetween(s, Position(n, q));
    AtMonotone(s, Position(n, p), Position(n, q));
  }

  lemma PositionGrows(n: nat, p: real, q: real)
    requires n > 0 && p <= q
    ensures Position(n, p) <= Position(n, q)
  {
  }

  // ---------------------------------------------------------------- whole distributions

  datatype Distribution = Distribution(minimum: real, p50: real, p99: real, p999: real, maximum: real)

  method Extremes(values: seq<real>) returns (least: real, greatest: real)
    requires values != []
    ensures least in values && greatest in values
    ensures forall y :: y in values ==> least <= y <= greatest
  {
    least, greatest := values[0], values[0];
    for i := 1 to |values|
      invariant least in values && greatest in values
      invariant forall j :: 0 <= j < i ==> least <= values[j] <= greatest
    {
      if values[i] < least {
        least := values[i];
      }
      if values[i] > greatest {
        greatest := values[i];
      }
    }
  }

  lemma Ends(s: seq<real>, values: seq<real>, least: real, greatest: real)
    requires s != [] && Ascending(s) && multiset(s) == multiset(values)
    requires least in values && greatest in values && forall y :: y in values ==> least <= y <= greatest
    ensures s[0] == least && s[|s| - 1] == greatest
  {
    assert s[0] in multiset(values) && s[|s| - 1] in multiset(values);
    assert least in multiset(s) && greatest in multiset(s);
    var i :| 0 <= i < |s| && s[i] == least;
    var j :| 0 <= j < |s| && s[j] == greatest;
    assert s[0] in values && s[|s| - 1] in values;
    assert s[0] <= s[i] && s[j] <= s[|s| - 1];
  }

  lemma ExtremesOfSorted(values: seq<real>, least: real, greatest: real)
    requires values != [] && least in values && greatest in values
    requires forall y :: y in values ==> least <= y <= greatest
    ensures |Sorted(values)| == |values|
    ensures Sorted(values)[0] == least && Sorted(values)[|values| - 1] == greatest
  {
    SortedSorts(values);
    Ends(Sorted(values), values, least, greatest);
  }

  /** What the qualification accepts: numbers that are not negative, in order, with a positive maximum. */
  predicate Accepted(d: Distribution) {
    0.0 <= d.minimum <= d.p50 <= d.p99 <= d.p999 <= d.maximum && d.maximum > 0.0
  }

  /** A distribution is always in order, and is accepted exactly when no sample is negative and some is positive. */
  method Summarize(values: seq<real>) returns (r: Result<Distribution>)
    ensures r.Err? <==> values == []
    ensures r.Ok? ==> r.value.minimum <= r.value.p50 <= r.value.p99 <= r.value.p999 <= r.value.maximum
    ensures r.Ok? ==> r.value.minimum in values && r.value.maximum in values
    ensures r.Ok? ==> forall y :: y in values ==> r.value.minimum <= y <= r.value.maximum
    ensures r.Ok? ==> (Accepted(r.value) <==> (forall y :: y in values ==> y >= 0.0) && exists y :: y in values && y > 0.0)
  {
    if values == [] {
      return Err;
    }
    var least, greatest := Extremes(values);
    ExtremesOfSorted(values, least, greatest);
    PercentileOrdered(values, 0.5, 0.99);
    PercentileOrdered(values, 0.99, 0.999);
    r := Ok(Distribution(least, Percentile(values, 0.5).value, Percentile(values, 0.99).value,
                         Percentile(values, 0.999).value, greatest));
  }
}
