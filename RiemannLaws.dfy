/**
 * What the Riemann-sum approximation promises: the swap-and-negate
 * identity, the zero-width and constant-function cases, the schedule of
 * evaluation points, and two worked examples.
 */
module RiemannLaws {
  import opened Wrappers
  import opened Riemann

  /** The result with its value negated; failures pass through. */
  function Negated(r: Result<real, string>): Result<real, string> {
    match r
    case Ok(v) => Ok(-v)
    case Err(e) => Err(e)
  }

  /** Exchanging the endpoints negates the sum, for every scheme. */
  lemma SwapNegates(f: real -> Result<real, string>, t: Scheme, a: real, b: real, n: nat)
    requires t != Other && n > 0
    ensures Approximation(f, t, a, b, n) == Negated(Approximation(f, t, b, a, n))
  {
    if a == b {
      ZeroWidth(f, t, a, n);
    } else {
      assert Ordered(a, b).lo == Ordered(b, a).lo && Ordered(a, b).hi == Ordered(b, a).hi;
      assert Sweep(f, t, a, b, n) == Sweep(f, t, b, a, n);
      forall s: real ensures Scaled(s, a, b, n) == -Scaled(s, b, a, n) {
      }
    }
  }

  /** With step 0 every iteration evaluates at `x0`, so the walk fails iff f(x0) does. */
  lemma {:induction false} AccumulateStandingStill(f: real -> Result<real, string>, t: Scheme, x0: real, k: nat)
    requires k > 0
    ensures Accumulate(f, t, x0, 0.0, k).Ok? <==> f(x0).Ok?
    ensures f(x0).Err? ==> Accumulate(f, t, x0, 0.0, k) == Err(f(x0).error)
  {
    assert x0 + (k - 1) as real * 0.0 == x0;
    assert x0 + 0.0 == x0;
    if k > 1 {
      AccumulateStandingStill(f, t, x0, k - 1);
    }
  }

  /**
   * Over an empty interval the sum is 0 when the equation can be evaluated
   * at that point, and the evaluation failure otherwise.
   */
  lemma ZeroWidth(f: real -> Result<real, string>, t: Scheme, a: real, n: nat)
    requires t != Other && n > 0
    ensures var r := Approximation(f, t, a, a, n);
      (f(a).Ok? ==> r.Ok? && r.value == 0.0) && (f(a).Err? ==> r.Err? && r.error == f(a).error)
  {
    var w := Ordered(a, a);
    assert Width(w, n) == 0.0;
    assert FirstSample(t, w.lo, 0.0) == a;
    AccumulateStandingStill(f, t, a, n);
  }

  /** With a constant equation every iteration adds `c`. */
  lemma {:induction false} AccumulateConstant(f: real -> Result<real, string>, c: real, t: Scheme, x0: real, h: real, k: nat)
    requires forall x :: f(x) == Ok(c)
    ensures Accumulate(f, t, x0, h, k).Ok? && Accumulate(f, t, x0, h, k).value == k as real * c
  {
    if k > 0 {
      AccumulateConstant(f, c, t, x0, h, k - 1);
      assert (k - 1) as real * c + c == k as real * c;
    }
  }

  /** Every scheme is exact on a constant equation: the sum is c * (end - start). */
  lemma ConstantIsExact(f: real -> Result<real, string>, c: real, t: Scheme, start: real, end: real, n: nat)
    requires t != Other && n > 0
    requires forall x :: f(x) == Ok(c)
    ensures var r := Approximation(f, t, start, end, n);
      r.Ok? && r.value == c * (end - start)
  {
    var w := Ordered(start, end);
    var h := Width(w, n);
    AccumulateConstant(f, c, t, FirstSample(t, w.lo, h), h, n);
    var sweep := Sweep(f, t, start, end, n);
    assert sweep.Ok? && sweep.value == n as real * c;
    ScaledCount(c, start, end, n);
  }

  /** `n` times `c`, scaled by the width, is c * (end - start). */
  lemma ScaledCount(c: real, start: real, end: real, n: nat)
    requires n > 0
    ensures Scaled(n as real * c, start, end, n) == c * (end - start)
  {
    var w := Ordered(start, end);
    var h := Width(w, n);
    var m := n as real;
    WidthsMakeInterval(w.hi - w.lo, m);
    Regroup(m, c, h);
    assert m * c * h == c * (w.hi - w.lo);
  }

  /** `n` widths of `d / n` make up `d`. */
  lemma WidthsMakeInterval(d: real, m: real)
    requires m > 0.0
    ensures m * (d / m) == d
  {
  }

  /** (m * c) * h == c * (m * h). */
  lemma Regroup(m: real, c: real, h: real)
    ensures m * c * h == c * (m * h)
  {
  }

  /**
   * The abscissae at which `k` iterations evaluate the equation, in call
   * order: one per iteration, two (left then right edge) for the
   * trapezoidal scheme.
   */
  function Schedule(t: Scheme, x0: real, h: real, k: nat): (pts: seq<real>)
    ensures |pts| == if t == Trapezoidal then 2 * k else k
  {
    if k == 0 then []
    else
      var x := Abscissa(x0, h, k - 1);
      Schedule(t, x0, h, k - 1) + (if t == Trapezoidal then [x, x + h] else [x])
  }

  /** Where each evaluation happens: the walk advances by `h` per iteration. */
  lemma {:induction false} ScheduleAt(t: Scheme, x0: real, h: real, k: nat, j: nat)
    requires j < k
    ensures t != Trapezoidal ==> Schedule(t, x0, h, k)[j] == Abscissa(x0, h, j)
    ensures t == Trapezoidal ==>
      Schedule(t, x0, h, k)[2 * j] == Abscissa(x0, h, j) && Schedule(t, x0, h, k)[2 * j + 1] == Abscissa(x0, h, j + 1)
  {
    var prefix := Schedule(t, x0, h, k - 1);
    if j < k - 1 {
      ScheduleAt(t, x0, h, k - 1, j);
      if t == Trapezoidal {
        assert Schedule(t, x0, h, k)[2 * j] == prefix[2 * j];
        assert Schedule(t, x0, h, k)[2 * j + 1] == prefix[2 * j + 1];
      } else {
        assert Schedule(t, x0, h, k)[j] == prefix[j];
      }
    } else {
      AbscissaNext(x0, h, j);
    }
  }

  /** The walk succeeds iff every scheduled evaluation succeeds. */
  lemma {:induction false} AccumulateOkIff(f: real -> Result<real, string>, t: Scheme, x0: real, h: real, k: nat)
    ensures Accumulate(f, t, x0, h, k).Ok? <==> forall p :: p in Schedule(t, x0, h, k) ==> f(p).Ok?
  {
    if k > 0 {
      AccumulateOkIff(f, t, x0, h, k - 1);
    }
  }

  /** The walk depends on the equation only through the scheduled points. */
  lemma {:induction false} AccumulateOnlyUsesSchedule(f: real -> Result<real, string>, g: real -> Result<real, string>, t: Scheme, x0: real, h: real, k: nat)
    requires forall p :: p in Schedule(t, x0, h, k) ==> f(p) == g(p)
    ensures Accumulate(f, t, x0, h, k) == Accumulate(g, t, x0, h, k)
  {
    if k > 0 {
      AccumulateOnlyUsesSchedule(f, g, t, x0, h, k - 1);
    }
  }

  /** The points RiemannSum evaluates for `n > 0` intervals over [start, end]. */
  function EvaluationPoints(t: Scheme, start: real, end: real, n: nat): seq<real>
    requires t != Other && n > 0
  {
    var w := Ordered(start, end);
    Schedule(t, FirstSample(t, w.lo, Width(w, n)), Width(w, n), n)
  }

  /**
   * The sample schedule of each scheme on the ascending interval [lo, hi]
   * with h = (hi - lo) / n, where Abscissa(lo, h, j) is lo + j*h: left and
   * trapezoidal start at lo, right at lo + h, midpoint at lo + h/2, and
   * the trapezoidal scheme asks for both edges of every interval.
   */
  lemma SampleSchedule(t: Scheme, start: real, end: real, n: nat, j: nat)
    requires t != Other && n > 0 && j < n
    ensures var lo, h := Ordered(start, end).lo, Width(Ordered(start, end), n);
      var pts := EvaluationPoints(t, start, end, n);
      |pts| == (if t == Trapezoidal then 2 * n else n)
      && (t == Left ==> pts[j] == Abscissa(lo, h, j))
      && (t == Right ==> pts[j] == Abscissa(lo, h, j + 1))
      && (t == Midpoint ==> pts[j] == Abscissa(lo, h, j) + 0.5 * h)
      && (t == Trapezoidal ==> pts[2 * j] == Abscissa(lo, h, j) && pts[2 * j + 1] == Abscissa(lo, h, j + 1))
  {
    var w := Ordered(start, end);
    var h := Width(w, n);
    var x0 := FirstSample(t, w.lo, h);
    ScheduleAt(t, x0, h, n, j);
    AbscissaNext(w.lo, h, j);
  }

  /**
   * An evaluation failure anywhere on the schedule aborts the sum; when
   * none fails there is a result. Two equations that agree on the
   * schedule give the same result.
   */
  lemma EvaluationFailureAborts(f: real -> Result<real, string>, g: real -> Result<real, string>, t: Scheme, start: real, end: real, n: nat)
    requires t != Other && n > 0
    ensures Approximation(f, t, start, end, n).Ok? <==> forall p :: p in EvaluationPoints(t, start, end, n) ==> f(p).Ok?
    ensures (forall p :: p in EvaluationPoints(t, start, end, n) ==> f(p) == g(p))
         ==> Approximation(f, t, start, end, n) == Approximation(g, t, start, end, n)
  {
    var w := Ordered(start, end);
    var h := Width(w, n);
    var x0 := FirstSample(t, w.lo, h);
    AccumulateOkIff(f, t, x0, h, n);
    if forall p :: p in EvaluationPoints(t, start, end, n) ==> f(p) == g(p) {
      AccumulateOnlyUsesSchedule(f, g, t, x0, h, n);
    }
  }

  /** `riemann left 0 1 2 x^1`: samples at 0 and 0.5, each weighted by 0.5. */
  lemma LeftExample(f: real -> Result<real, string>)
    requires forall x :: f(x) == Ok(x)
    ensures var r := Approximation(f, Left, 0.0, 1.0, 2);
      r.Ok? && r.value == 0.25
  {
    assert Width(Ordered(0.0, 1.0), 2) == 0.5;
  }

  /** `riemann trapezoidal 0 2 2 x^1`: exact for a straight line. */
  lemma TrapezoidalExample(f: real -> Result<real, string>)
    requires forall x :: f(x) == Ok(x)
    ensures var r := Approximation(f, Trapezoidal, 0.0, 2.0, 2);
      r.Ok? && r.value == 2.0
  {
    assert Width(Ordered(0.0, 2.0), 2) == 1.0;
  }
}
