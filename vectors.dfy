/** The two-component vector of doubles (`sf::Vector2d`) over exact reals. */
module Vectors {
  import opened Powers

  datatype Vec2 = Vec2(x: real, y: real)

  const Zero: Vec2 := Vec2(0.0, 0.0)

  function Add(a: Vec2, b: Vec2): Vec2 { Vec2(a.x + b.x, a.y + b.y) }

  function Sub(a: Vec2, b: Vec2): Vec2 { Vec2(a.x - b.x, a.y - b.y) }

  function Neg(a: Vec2): Vec2 { Vec2(-a.x, -a.y) }

  /** `c * v` and `v * c` for a scalar c. */
  function Scale(c: real, a: Vec2): Vec2 { Vec2(c * a.x, c * a.y) }

  /** `v / c` for a scalar c. */
  function Div(a: Vec2, c: real): Vec2
    requires c != 0.0
  {
    Vec2(a.x / c, a.y / c)
  }

  /** The squared Euclidean length, `pow(v.x, 2) + pow(v.y, 2)`. */
  function NormSqr(a: Vec2): real { Sq(a.x) + Sq(a.y) }

  /** The squared length is the sum of the two `pow(_, 2)` terms. */
  lemma NormSqrIsPow(a: Vec2)
    ensures NormSqr(a) == Pow(a.x, 2) + Pow(a.y, 2)
  {
    SqIsPow(a.x);
    SqIsPow(a.y);
  }

  /** The squared length is non-negative and zero only for the zero vector. */
  lemma NormSqrFacts(a: Vec2)
    ensures NormSqr(a) >= 0.0
    ensures NormSqr(a) == 0.0 <==> a == Zero
  {
    SqFacts(a.x);
    SqFacts(a.y);
  }

  /** The squared distance does not depend on the order of the two points. */
  lemma NormSqrOfReversed(a: Vec2, b: Vec2)
    ensures NormSqr(Sub(b, a)) == NormSqr(Sub(a, b))
  {
    SqNeg(a.x - b.x);
    SqNeg(a.y - b.y);
  }

  /** A sequence of n zero vectors: a freshly allocated `new sf::Vector2d[n]`. */
  function Zeros(n: nat): (r: seq<Vec2>)
    ensures |r| == n && forall i :: 0 <= i < n ==> r[i] == Zero
  {
    seq(n, _ => Zero)
  }

  /** The component-wise sum of a sequence of vectors. */
  function Sum(s: seq<Vec2>): Vec2
    decreases |s|
  {
    if s == [] then Zero else Add(Sum(s[..|s| - 1]), s[|s| - 1])
  }

  lemma {:induction false} SumUpdate(s: seq<Vec2>, k: nat, v: Vec2)
    requires k < |s|
    ensures Sum(s[k := v]) == Add(Sub(Sum(s), s[k]), v)
    decreases |s|
  {
    var n := |s|;
    if k < n - 1 {
      SumUpdate(s[..n - 1], k, v);
      assert s[k := v][..n - 1] == s[..n - 1][k := v];
    } else {
      assert s[k := v][..n - 1] == s[..n - 1];
    }
  }

  /** Adding f at one index and subtracting it at another leaves the sum unchanged. */
  lemma {:induction false} SumOfOppositeUpdates(s: seq<Vec2>, i: nat, j: nat, f: Vec2)
    requires i < |s| && j < |s| && i != j
    ensures Sum(s[i := Add(s[i], f)][j := Sub(s[j], f)]) == Sum(s)
  {
    var t := s[i := Add(s[i], f)];
    SumUpdate(s, i, Add(s[i], f));
    SumUpdate(t, j, Sub(t[j], f));
  }
}
