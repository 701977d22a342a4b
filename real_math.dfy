/** Ideal real arithmetic standing in for Python floats: the library functions the
    generator calls, and sums of real sequences. */
module RealMath {

  /** `math.sqrt`, `math.exp` and `math.log`, left uninterpreted. */
  datatype MathOps = MathOps(sqrt: real -> real, exp: real -> real, log: real -> real) {

    /** The only facts about the library functions the model relies on. */
    ghost predicate Sound() {
      (forall x: real :: 0.0 <= x ==> 0.0 <= sqrt(x)) &&
      (forall x: real :: 0.0 < x ==> 0.0 < sqrt(x)) &&
      sqrt(0.0) == 0.0 &&
      (forall x: real :: 0.0 < exp(x))
    }
  }

  /** Library functions that satisfy those facts; the witness only shows that some do. */
  type SoundMath = m: MathOps | m.Sound()
    witness MathOps(x => x, x => 1.0, x => 0.0)

  /** A sum of two squares is non-negative. */
  lemma SumOfSquares(a: real, b: real)
    ensures 0.0 <= a * a + b * b
  {
  }

  /** Multiplying by a positive number keeps a strict order. */
  lemma MulLess(x: real, a: real, b: real)
    requires 0.0 < x && a < b
    ensures x * a < x * b
  {
  }

  /** Python's `sum`, accumulated left to right from 0. */
  function Sum(s: seq<real>): (r: real)
    ensures |s| == 0 ==> r == 0.0
    ensures |s| == 1 ==> r == s[0]
    decreases |s|
  {
    if |s| == 0 then 0.0 else Sum(s[..|s| - 1]) + s[|s| - 1]
  }

  /** `[w / total for w in s]` */
  function Normalise(s: seq<real>, total: real): (r: seq<real>)
    requires total != 0.0
    ensures |r| == |s|
  {
    seq(|s|, k requires 0 <= k < |s| => s[k] / total)
  }

  lemma DivideBySelf(t: real)
    requires t != 0.0
    ensures t / t == 1.0
  {
  }

  lemma {:induction false} SumNormalise(s: seq<real>, total: real)
    requires total != 0.0
    ensures Sum(Normalise(s, total)) == Sum(s) / total
    decreases |s|
  {
    if |s| > 0 {
      var n := |s| - 1;
      assert Normalise(s, total)[..n] == Normalise(s[..n], total);
      SumNormalise(s[..n], total);
      calc {
        Sum(Normalise(s, total));
        Sum(Normalise(s[..n], total)) + s[n] / total;
        Sum(s[..n]) / total + s[n] / total;
        (Sum(s[..n]) + s[n]) / total;
      }
    }
  }

  lemma {:induction false} SumNonNegative(s: seq<real>)
    requires forall k :: 0 <= k < |s| ==> 0.0 <= s[k]
    ensures 0.0 <= Sum(s)
    ensures Sum(s) == 0.0 <==> forall k :: 0 <= k < |s| ==> s[k] == 0.0
    decreases |s|
  {
    if |s| > 0 {
      var n := |s| - 1;
      SumNonNegative(s[..n]);
      assert forall k :: 0 <= k < n ==> s[..n][k] == s[k];
    }
  }

  lemma {:induction false} SumPositive(s: seq<real>)
    requires |s| > 0
    requires forall k :: 0 <= k < |s| ==> 0.0 < s[k]
    ensures 0.0 < Sum(s)
    decreases |s|
  {
    var n := |s| - 1;
    if n > 0 {
      SumPositive(s[..n]);
    } else {
      assert Sum(s[..n]) == 0.0;
    }
  }
}
