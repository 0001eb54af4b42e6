/** Vocabulary shared by the hooks and the views: the outcome of a request to the
    hosted database, the badge variants the views pick from, and the JavaScript
    number operations (Math.min, Math.max, Math.round, Array.reduce with `+`)
    that the derived metrics are built from. Money and percentages are `real`. */
module Common {

  /** The outcome of one request to the hosted database: the data it returned,
      or an error (which the hooks catch, log and show as a toast). */
  datatype Reply<T> = Ok(value: T) | Failed

  datatype Option<T> = None | Some(value: T)

  /** The badge variants chosen by the threshold classifiers. */
  datatype Variant = Secondary | Default | Destructive

  /** Order of alarm: secondary < default < destructive. */
  function Severity(v: Variant): (n: nat)
    ensures n <= 2
  {
    match v
    case Secondary => 0
    case Default => 1
    case Destructive => 2
  }

  function Min(a: real, b: real): (r: real)
    ensures r <= a && r <= b
    ensures r == a || r == b
  {
    if a <= b then a else b
  }

  function Max(a: real, b: real): (r: real)
    ensures r >= a && r >= b
    ensures r == a || r == b
  {
    if a >= b then a else b
  }

  /** Math.round: the nearest integer, a half rounded up (towards +infinity). */
  function Round(x: real): (r: int)
    ensures x - 0.5 < r as real <= x + 0.5
  {
    (x + 0.5).Floor
  }

  /** `xs.reduce((sum, x) => sum + x, 0)`: a left fold starting from 0. */
  function Sum(xs: seq<real>): (r: real)
    ensures (forall i :: 0 <= i < |xs| ==> 0.0 <= xs[i]) ==> 0.0 <= r
  {
    if xs == [] then 0.0 else Sum(xs[..|xs| - 1]) + xs[|xs| - 1]
  }

  lemma {:induction false} SumAppend(a: seq<real>, b: seq<real>)
    ensures Sum(a + b) == Sum(a) + Sum(b)
  {
    if b == [] {
      assert a + b == a;
    } else {
      assert (a + b)[..|a + b| - 1] == a + b[..|b| - 1];
      SumAppend(a, b[..|b| - 1]);
    }
  }

  /** Summing element-wise differences is the difference of the sums. */
  lemma {:induction false} SumOfDifferences(xs: seq<real>, ys: seq<real>, ds: seq<real>)
    requires |xs| == |ys| == |ds|
    requires forall i :: 0 <= i < |ds| ==> ds[i] == xs[i] - ys[i]
    ensures Sum(ds) == Sum(xs) - Sum(ys)
  {
    if ds != [] {
      var n := |ds| - 1;
      SumOfDifferences(xs[..n], ys[..n], ds[..n]);
    }
  }

  /** Summing element-wise multiples of `c` is `c` times the sum. */
  lemma {:induction false} SumOfMultiples(xs: seq<real>, ys: seq<real>, c: real)
    requires |xs| == |ys|
    requires forall i :: 0 <= i < |ys| ==> ys[i] == xs[i] * c
    ensures Sum(ys) == Sum(xs) * c
  {
    if ys != [] {
      var n := |ys| - 1;
      SumOfMultiples(xs[..n], ys[..n], c);
      assert Sum(ys) == Sum(ys[..n]) + ys[n];
      assert Sum(xs) == Sum(xs[..n]) + xs[n];
      assert Sum(xs[..n]) * c + xs[n] * c == (Sum(xs[..n]) + xs[n]) * c;
    }
  }

  /** A sum of values each at most `c` is at most `c` times their number. */
  lemma {:induction false} SumAtMost(xs: seq<real>, c: real)
    requires forall i :: 0 <= i < |xs| ==> xs[i] <= c
    ensures Sum(xs) <= |xs| as real * c
  {
    if xs != [] {
      var n := |xs| - 1;
      SumAtMost(xs[..n], c);
      assert |xs| as real * c == n as real * c + c;
    }
  }

  /** `Math.min((part / whole) * 100, 100)`: how much of `whole` `part` is, in
      percent, capped at 100. A zero `whole` gives NaN or Infinity in
      JavaScript and is excluded. */
  function ClampedPercentage(part: real, whole: real): (r: real)
    requires whole > 0.0
    ensures r <= 100.0
    ensures part <= whole ==> r == part / whole * 100.0
    ensures part >= whole ==> r == 100.0
    ensures 0.0 <= part ==> 0.0 <= r
  {
    Min(part / whole * 100.0, 100.0)
  }
}
