/**
 * The generic classical fourth-order Runge-Kutta integrator: a pure scalar step and an
 * in-place step over a vector state that keeps its four stage buffers as members.
 * The element type of the vector version is instantiated at `real`.
 */
module RungeKutta {

  /** The right-hand side f(x, y) of a scalar equation. */
  type ScalarField = (real, real) -> real

  /** The callback that gives entry i of the derivative of a vector state. */
  type VectorField = (seq<real>, nat) -> real

  /** One Euler move y + c k: the point at which a later stage is evaluated. */
  function Euler(y: real, c: real, k: real): real
  {
    y + c * k
  }

  /**
   * The static scalar `integrate`: one step of size h of y' = f(x, y) from (xn, yn).
   * A step of size zero leaves the state where it is.
   */
  function Integrate(xn: real, yn: real, f: ScalarField, h: real): (r: real)
    ensures h == 0.0 ==> r == yn
  {
    var k1 := f(xn, yn);
    var k2 := f(xn + h / 2.0, Euler(yn, h / 2.0, k1));
    var k3 := f(xn + h / 2.0, Euler(yn, h / 2.0, k2));
    var k4 := f(xn + h, Euler(yn, h, k3));
    yn + h / 6.0 * (k1 + 2.0 * k2 + 2.0 * k3 + k4)
  }

  /** A vanishing right-hand side leaves the state unchanged. */
  lemma IntegrateZeroField(xn: real, yn: real, h: real)
    ensures Integrate(xn, yn, (x, y) => 0.0, h) == yn
  {
  }

  /** A constant right-hand side c is integrated exactly: yn + h c. */
  lemma IntegrateConstantField(xn: real, yn: real, c: real, h: real)
    ensures Integrate(xn, yn, (x, y) => c, h) == yn + h * c
  {
  }

  /**
   * When f does not depend on y the step is Simpson's rule for the integral of f
   * over [xn, xn + h].
   */
  lemma IntegrateQuadrature(xn: real, yn: real, g: real -> real, h: real)
    ensures Integrate(xn, yn, (x, y) => g(x), h)
         == yn + h / 6.0 * (g(xn) + 4.0 * g(xn + h / 2.0) + g(xn + h))
  {
  }

  /**
   * On the linear equation y' = lambda y the step multiplies the state by the degree-4
   * Taylor polynomial of exp(z), z = h lambda (in Horner form): the method has order four.
   */
  lemma IntegrateLinearField(xn: real, yn: real, lambda: real, f: ScalarField, h: real)
    requires forall x, y :: f(x, y) == lambda * y
    ensures var z := h * lambda;
      Integrate(xn, yn, f, h) == yn * (1.0 + z * (1.0 + z * (1.0 / 2.0 + z * (1.0 / 6.0 + z / 24.0))))
  {
    var k1 := f(xn, yn);
    assert k1 == lambda * yn;
    var k2 := f(xn + h / 2.0, Euler(yn, h / 2.0, k1));
    assert k2 == lambda * Euler(yn, h / 2.0, k1);
    var k3 := f(xn + h / 2.0, Euler(yn, h / 2.0, k2));
    assert k3 == lambda * Euler(yn, h / 2.0, k2);
    var k4 := f(xn + h, Euler(yn, h, k3));
    assert k4 == lambda * Euler(yn, h, k3);
    IntegrateStages(xn, yn, f, h, k1, k2, k3, k4);
    LinearStep(Integrate(xn, yn, f, h), yn, lambda, h, k1, k2, k3, k4);
  }

  /** A step r built from the four stages of y' = lambda y is yn times the Taylor polynomial. */
  lemma LinearStep(r: real, yn: real, lambda: real, h: real, k1: real, k2: real, k3: real, k4: real)
    requires r == yn + h / 6.0 * (k1 + 2.0 * k2 + 2.0 * k3 + k4)
    requires k1 == lambda * yn && k2 == lambda * Euler(yn, h / 2.0, k1)
    requires k3 == lambda * Euler(yn, h / 2.0, k2) && k4 == lambda * Euler(yn, h, k3)
    ensures var z := h * lambda;
      r == yn * (1.0 + z * (1.0 + z * (1.0 / 2.0 + z * (1.0 / 6.0 + z / 24.0))))
  {
    LinearStages(yn, lambda, h, k1, k2, k3, k4);
    Horner(yn, h, lambda);
  }

  /** The scalar step in terms of its four stage values k1 .. k4. */
  lemma IntegrateStages(xn: real, yn: real, f: ScalarField, h: real, k1: real, k2: real, k3: real, k4: real)
    requires k1 == f(xn, yn) && k2 == f(xn + h / 2.0, Euler(yn, h / 2.0, k1))
    requires k3 == f(xn + h / 2.0, Euler(yn, h / 2.0, k2)) && k4 == f(xn + h, Euler(yn, h, k3))
    ensures Integrate(xn, yn, f, h) == yn + h / 6.0 * (k1 + 2.0 * k2 + 2.0 * k3 + k4)
  {
  }

  /** The four stages on y' = lambda y, expanded in powers of z = h lambda. */
  lemma LinearStages(yn: real, lambda: real, h: real, k1: real, k2: real, k3: real, k4: real)
    requires k1 == lambda * yn && k2 == lambda * Euler(yn, h / 2.0, k1)
    requires k3 == lambda * Euler(yn, h / 2.0, k2) && k4 == lambda * Euler(yn, h, k3)
    ensures var z := h * lambda;
      yn + h / 6.0 * (k1 + 2.0 * k2 + 2.0 * k3 + k4)
      == yn + z * yn + z * (z * yn) / 2.0 + z * (z * (z * yn)) / 6.0 + z * (z * (z * (z * yn))) / 24.0
  {
    var z := h * lambda;
    var p1 := z * yn;
    var p2 := z * p1;
    var p3 := z * p2;
    var p4 := z * p3;
    assert h * k1 == p1;
    assert h * k2 == p1 + p2 / 2.0;
    assert h * k3 == p1 + p2 / 2.0 + p3 / 4.0;
    assert h * k4 == p1 + p2 + p3 / 2.0 + p4 / 4.0;
  }

  /** The degree-4 Taylor polynomial of exp(z), z = h lambda, times yn, from Horner form to powers of z. */
  lemma Horner(yn: real, h: real, lambda: real)
    ensures var z := h * lambda;
      yn * (1.0 + z * (1.0 + z * (1.0 / 2.0 + z * (1.0 / 6.0 + z / 24.0))))
      == yn + z * yn + z * (z * yn) / 2.0 + z * (z * (z * yn)) / 6.0 + z * (z * (z * (z * yn))) / 24.0
  {
    var z := h * lambda;
    assert yn * (1.0 / 6.0 + z / 24.0) == yn / 6.0 + z * yn / 24.0;
    assert yn * (z * (1.0 / 6.0 + z / 24.0)) == z * (yn * (1.0 / 6.0 + z / 24.0));
  }

  /**
   * The right-hand side of the vector version: the callback fills each entry i of the
   * zeroed buffer it is handed with f(y, i).
   */
  function Eval(f: VectorField, y: seq<real>): (k: seq<real>)
    ensures |k| == |y| && forall i :: 0 <= i < |y| ==> k[i] == f(y, i)
  {
    seq(|y|, i requires 0 <= i < |y| => f(y, i))
  }

  /** y + c k, entry by entry. */
  function Axpy(y: seq<real>, c: real, k: seq<real>): (r: seq<real>)
    requires |k| == |y|
    ensures |r| == |y| && forall i :: 0 <= i < |y| ==> r[i] == y[i] + c * k[i]
  {
    seq(|y|, i requires 0 <= i < |y| => y[i] + c * k[i])
  }

  function Stage1(f: VectorField, y: seq<real>): seq<real>
  {
    Eval(f, y)
  }

  function Stage2(f: VectorField, y: seq<real>, h: real): seq<real>
  {
    Eval(f, Axpy(y, h / 2.0, Stage1(f, y)))
  }

  function Stage3(f: VectorField, y: seq<real>, h: real): seq<real>
  {
    Eval(f, Axpy(y, h / 2.0, Stage2(f, y, h)))
  }

  function Stage4(f: VectorField, y: seq<real>, h: real): seq<real>
  {
    Eval(f, Axpy(y, h, Stage3(f, y, h)))
  }

  /** The final update: y + h/6 (k1 + 2 k2 + 2 k3 + k4), entry by entry. */
  function Combine(y: seq<real>, h: real, k1: seq<real>, k2: seq<real>, k3: seq<real>, k4: seq<real>): (r: seq<real>)
    requires |k1| == |k2| == |k3| == |k4| == |y|
    ensures |r| == |y|
    ensures forall i :: 0 <= i < |y| ==>
      r[i] == y[i] + h / 6.0 * (k1[i] + 2.0 * k2[i] + 2.0 * k3[i] + k4[i])
  {
    seq(|y|, i requires 0 <= i < |y| => y[i] + h / 6.0 * (k1[i] + 2.0 * k2[i] + 2.0 * k3[i] + k4[i]))
  }

  /** The Runge-Kutta step of the vector version, as a function of the old state. */
  function Step(f: VectorField, y: seq<real>, h: real): (r: seq<real>)
    ensures |r| == |y|
  {
    Combine(y, h, Stage1(f, y), Stage2(f, y, h), Stage3(f, y, h), Stage4(f, y, h))
  }

  /** A vanishing right-hand side leaves every entry unchanged. */
  lemma StepZeroField(y: seq<real>, h: real)
    ensures Step((ys, i) => 0.0, y, h) == y
  {
    var r := Step((ys, i) => 0.0, y, h);
    assert forall i :: 0 <= i < |y| ==> r[i] == y[i];
  }

  /** A constant right-hand side c moves every entry by h c. */
  lemma StepConstantField(y: seq<real>, c: real, h: real)
    ensures forall i :: 0 <= i < |y| ==> Step((ys, j) => c, y, h)[i] == y[i] + h * c
  {
  }

  /**
   * On the decoupled linear system y_i' = lambda y_i every entry is multiplied by the
   * same polynomial as in the scalar step (`IntegrateLinearField`).
   */
  lemma StepLinearField(y: seq<real>, lambda: real, h: real)
    ensures var z := h * lambda;
      forall i :: 0 <= i < |y| ==>
        Step((ys: seq<real>, j: nat) => if j < |ys| then lambda * ys[j] else 0.0, y, h)[i]
        == y[i] * (1.0 + z * (1.0 + z * (1.0 / 2.0 + z * (1.0 / 6.0 + z / 24.0))))
  {
  }

  /**
   * The two versions agree: when f ignores x and the vector right-hand side F on a
   * one-element state is f, the vector step of [yn] is the scalar step of yn.
   */
  lemma StepAgreesWithIntegrate(xn: real, yn: real, f: ScalarField, F: VectorField, h: real)
    requires forall x, y :: f(x, y) == F([y], 0)
    ensures Step(F, [yn], h) == [Integrate(xn, yn, f, h)]
  {
    var k1 := f(xn, yn);
    assert Stage1(F, [yn]) == [k1];
    AxpyHalf(yn, h, k1);
    var k2 := f(xn + h / 2.0, Euler(yn, h / 2.0, k1));
    assert Eval(F, [Euler(yn, h / 2.0, k1)]) == [k2];
    assert Stage2(F, [yn], h) == [k2];
    AxpyHalf(yn, h, k2);
    var k3 := f(xn + h / 2.0, Euler(yn, h / 2.0, k2));
    assert Eval(F, [Euler(yn, h / 2.0, k2)]) == [k3];
    assert Stage3(F, [yn], h) == [k3];
    AxpySingle(yn, h, k3);
    var k4 := f(xn + h, Euler(yn, h, k3));
    assert Eval(F, [Euler(yn, h, k3)]) == [k4];
    assert Stage4(F, [yn], h) == [k4];
    CombineSingle(yn, h, k1, k2, k3, k4);
    assert Step(F, [yn], h) == [yn + h / 6.0 * (k1 + 2.0 * k2 + 2.0 * k3 + k4)];
    IntegrateStages(xn, yn, f, h, k1, k2, k3, k4);
  }

  /** Axpy on a one-element state is one Euler move. */
  lemma AxpySingle(y: real, c: real, k: real)
    ensures Axpy([y], c, [k]) == [Euler(y, c, k)]
  {
    var r := Axpy([y], c, [k]);
    assert |r| == 1;
    assert r[0] == [y][0] + c * [k][0];
    assert [y][0] == y && [k][0] == k;
    assert r[0] == y + c * k;
  }

  /** The half-step form of `AxpySingle`, with the same terms as the scalar step. */
  lemma AxpyHalf(y: real, h: real, k: real)
    ensures Axpy([y], h / 2.0, [k]) == [Euler(y, h / 2.0, k)]
  {
    var r := Axpy([y], h / 2.0, [k]);
    assert |r| == 1;
    assert r[0] == [y][0] + h / 2.0 * [k][0];
    assert [y][0] == y && [k][0] == k;
    assert r[0] == y + h / 2.0 * k;
  }

  /** The final update on a one-element state. */
  lemma CombineSingle(y: real, h: real, a: real, b: real, c: real, d: real)
    ensures Combine([y], h, [a], [b], [c], [d]) == [y + h / 6.0 * (a + 2.0 * b + 2.0 * c + d)]
  {
    var r := Combine([y], h, [a], [b], [c], [d]);
    assert |r| == 1;
    assert [y][0] == y && [a][0] == a && [b][0] == b && [c][0] == c && [d][0] == d;
    assert r[0] == y + h / 6.0 * (a + 2.0 * b + 2.0 * c + d);
  }

  /** The integrator object: its four stage buffers survive between calls. */
  class Integrator {
    var k1: seq<real>
    var k2: seq<real>
    var k3: seq<real>
    var k4: seq<real>

    constructor()
      ensures k1 == [] && k2 == [] && k3 == [] && k4 == []
    {
      k1, k2, k3, k4 := [], [], [], [];
    }

    /**
     * The in-place `integrate`: the buffers end up with the length of the state and
     * hold the four stages, evaluated at yn, yn + h/2 k1, yn + h/2 k2 and yn + h k3;
     * every perturbation of yn is undone before the final update, which leaves
     * yn = old yn + h/6 (k1 + 2 k2 + 2 k3 + k4).
     */
    method Integrate(yn: array<real>, f: VectorField, h: real)
      modifies this, yn
      ensures |k1| == |k2| == |k3| == |k4| == yn.Length
      ensures k1 == Stage1(f, old(yn[..]))
      ensures k2 == Stage2(f, old(yn[..]), h)
      ensures k3 == Stage3(f, old(yn[..]), h)
      ensures k4 == Stage4(f, old(yn[..]), h)
      ensures yn[..] == Step(f, old(yn[..]), h)
    {
      ghost var y := yn[..];

      var a1 := Eval(f, yn[..]);
      k1 := a1;
      Perturb(yn, a1, h / 2.0);

      var a2 := Eval(f, yn[..]);
      k2 := a2;
      Shift(yn, y, a1, h / 2.0, a2, h / 2.0);

      var a3 := Eval(f, yn[..]);
      k3 := a3;
      Shift(yn, y, a2, h / 2.0, a3, h);

      var a4 := Eval(f, yn[..]);
      k4 := a4;
      Finish(yn, y, h, a1, a2, a3, a4);
    }

    /** The first loop: adds cb b to every entry, turning y into y + cb b. */
    static method Perturb(yn: array<real>, b: seq<real>, cb: real)
      requires |b| == yn.Length
      modifies yn
      ensures yn[..] == Axpy(old(yn[..]), cb, b)
    {
      ghost var y := yn[..];
      for i := 0 to yn.Length
        invariant forall j :: 0 <= j < i ==> yn[j] == y[j] + cb * b[j]
        invariant forall j :: i <= j < yn.Length ==> yn[j] == y[j]
      {
        yn[i] := yn[i] + cb * b[i];
      }
    }

    /** The last loop: takes h k3 off every entry and applies the weighted update. */
    static method Finish(yn: array<real>, ghost y: seq<real>, h: real,
                         a1: seq<real>, a2: seq<real>, a3: seq<real>, a4: seq<real>)
      requires |y| == |a1| == |a2| == |a3| == |a4| == yn.Length
      requires yn[..] == Axpy(y, h, a3)
      modifies yn
      ensures yn[..] == Combine(y, h, a1, a2, a3, a4)
    {
      for i := 0 to yn.Length
        invariant forall j :: 0 <= j < i ==>
          yn[j] == y[j] + h / 6.0 * (a1[j] + 2.0 * a2[j] + 2.0 * a3[j] + a4[j])
        invariant forall j :: i <= j < yn.Length ==> yn[j] == y[j] + h * a3[j]
      {
        yn[i] := yn[i] - h * a3[i];
        yn[i] := yn[i] + h / 6.0 * (a1[i] + 2.0 * a2[i] + 2.0 * a3[i] + a4[i]);
      }
    }

    /**
     * One of the middle loops: takes the perturbation ca a off every entry and puts
     * cb b on instead, turning y + ca a into y + cb b.
     */
    static method Shift(yn: array<real>, ghost y: seq<real>, a: seq<real>, ca: real, b: seq<real>, cb: real)
      requires |y| == |a| == |b| == yn.Length
      requires yn[..] == Axpy(y, ca, a)
      modifies yn
      ensures yn[..] == Axpy(y, cb, b)
    {
      for i := 0 to yn.Length
        invariant forall j :: 0 <= j < i ==> yn[j] == y[j] + cb * b[j]
        invariant forall j :: i <= j < yn.Length ==> yn[j] == y[j] + ca * a[j]
      {
        yn[i] := yn[i] - ca * a[i];
        yn[i] := yn[i] + cb * b[i];
      }
    }
  }
}
