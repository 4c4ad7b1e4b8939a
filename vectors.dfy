/** Element-wise vector arithmetic over exact reals, as numpy does it on embedding rows
    (`+`, `-`, scalar `*`, and `mean(axis=0)`). */
module Vectors {

  function Zeros(d: nat): (r: seq<real>)
    ensures |r| == d && forall i | 0 <= i < d :: r[i] == 0.0
  {
    seq(d, i => 0.0)
  }

  function Add(a: seq<real>, b: seq<real>): (r: seq<real>)
    requires |a| == |b|
    ensures |r| == |a| && forall i | 0 <= i < |a| :: r[i] == a[i] + b[i]
  {
    seq(|a|, i requires 0 <= i < |a| => a[i] + b[i])
  }

  function Sub(a: seq<real>, b: seq<real>): (r: seq<real>)
    requires |a| == |b|
    ensures |r| == |a| && forall i | 0 <= i < |a| :: r[i] == a[i] - b[i]
  {
    seq(|a|, i requires 0 <= i < |a| => a[i] - b[i])
  }

  function Scale(c: real, a: seq<real>): (r: seq<real>)
    ensures |r| == |a| && forall i | 0 <= i < |a| :: r[i] == c * a[i]
  {
    seq(|a|, i requires 0 <= i < |a| => c * a[i])
  }

  ghost predicate AllOfDim(vs: seq<seq<real>>, d: nat) {
    forall j | 0 <= j < |vs| :: |vs[j]| == d
  }

  function Sum(vs: seq<seq<real>>, d: nat): (r: seq<real>)
    requires AllOfDim(vs, d)
    ensures |r| == d
  {
    if vs == [] then Zeros(d) else Add(vs[0], Sum(vs[1..], d))
  }

  /** `np.mean(vs, axis=0)`. */
  function Mean(vs: seq<seq<real>>, d: nat): (r: seq<real>)
    requires |vs| > 0 && AllOfDim(vs, d)
    ensures |r| == d
  {
    Scale(1.0 / (|vs| as real), Sum(vs, d))
  }

  /** The sum of n copies of one vector is n times that vector. */
  lemma {:induction false} SumOfCopies(vs: seq<seq<real>>, v: seq<real>)
    requires forall j | 0 <= j < |vs| :: vs[j] == v
    ensures AllOfDim(vs, |v|) && Sum(vs, |v|) == Scale(|vs| as real, v)
  {
    if vs != [] {
      SumOfCopies(vs[1..], v);
      var r := Sum(vs, |v|);
      forall i | 0 <= i < |v| ensures r[i] == (|vs| as real) * v[i] {
        assert r[i] == v[i] + ((|vs| - 1) as real) * v[i];
      }
    }
  }

  /** The mean of n copies of one vector is that vector. */
  lemma MeanOfCopies(vs: seq<seq<real>>, v: seq<real>)
    requires |vs| > 0 && forall j | 0 <= j < |vs| :: vs[j] == v
    ensures AllOfDim(vs, |v|) && Mean(vs, |v|) == v
  {
    SumOfCopies(vs, v);
    var n := |vs| as real;
    forall i | 0 <= i < |v| ensures Mean(vs, |v|)[i] == v[i] {
      calc {
        Mean(vs, |v|)[i];
        (1.0 / n) * (n * v[i]);
        ((1.0 / n) * n) * v[i];
        v[i];
      }
    }
  }
}
