/** Definitions shared by the models. */
module Common {

  datatype Option<T> = None | Some(value: T)

  /** The range of a 64-bit unsigned integer. */
  const WORD: nat := 0x1_0000_0000_0000_0000

  function Sum(s: seq<nat>): nat {
    if s == [] then 0 else Sum(s[..|s| - 1]) + s[|s| - 1]
  }

  lemma {:induction false} SumZeros(n: nat)
    ensures Sum(seq(n, _ => 0)) == 0
  {
    if n > 0 {
      SumZeros(n - 1);
      assert seq(n, _ => 0)[..n - 1] == seq(n - 1, _ => 0);
    }
  }

  lemma {:induction false} SumUpdate(s: seq<nat>, i: nat, x: nat)
    requires i < |s|
    ensures Sum(s[i := x]) == Sum(s) - s[i] + x
  {
    var n := |s| - 1;
    if i == n {
      assert s[i := x][..n] == s[..n];
    } else {
      SumUpdate(s[..n], i, x);
      assert s[i := x][..n] == s[..n][i := x];
    }
  }

  lemma {:induction false} SumBound(s: seq<nat>, limit: nat)
    requires forall i :: 0 <= i < |s| ==> s[i] <= limit
    ensures Sum(s) <= |s| * limit
    ensures Sum(s) == |s| * limit ==> forall i :: 0 <= i < |s| ==> s[i] == limit
  {
    if s != [] {
      var n := |s| - 1;
      SumBound(s[..n], limit);
      assert |s| * limit == n * limit + limit;
      assert forall i :: 0 <= i < n ==> s[..n][i] == s[i];
    }
  }

  lemma {:induction false} SumFull(s: seq<nat>, limit: nat)
    requires forall i :: 0 <= i < |s| ==> s[i] == limit
    ensures Sum(s) == |s| * limit
  {
    if s != [] {
      SumFull(s[..|s| - 1], limit);
      assert |s| * limit == (|s| - 1) * limit + limit;
    }
  }

  lemma {:induction false} SumAtLeast(s: seq<nat>, limit: nat)
    requires forall i :: 0 <= i < |s| ==> s[i] >= limit
    ensures Sum(s) >= |s| * limit
  {
    if s != [] {
      SumAtLeast(s[..|s| - 1], limit);
      assert |s| * limit == (|s| - 1) * limit + limit;
    }
  }

  lemma Multiples(d: nat, x: nat, y: nat)
    requires x <= y
    ensures d * x <= d * y
  {
  }

  lemma NextMultiple(d: nat, x: nat, y: nat)
    requires x < y
    ensures d * x + d <= d * y
  {
    Multiples(d, x + 1, y);
    assert d * (x + 1) == d * x + d;
  }

  lemma Quotient(value: nat, d: nat, q: nat, r: nat)
    requires d > 0 && value == d * q + r && r < d
    ensures value / d == q
  {
    var x: nat, m: nat := value / d, value % d;
    assert value == d * x + m && m < d;
    if x < q {
      NextMultiple(d, x, q);
    } else if q < x {
      NextMultiple(d, q, x);
    }
  }
}
