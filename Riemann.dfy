/**
 * `RiemannSum` and the scheme lookup that the dispatcher runs before it.
 * Numbers are exact reals; the evaluator is the engine's FindY applied to
 * the parsed equation.
 */
module Riemann {
  import opened Wrappers
  import opened Interface

  /** The enumeration RiemannTypes; `Other` is what an unknown name maps to. */
  datatype Scheme = Right | Left | Midpoint | Trapezoidal | Other

  /** RiemannTypesStr: the scheme names, indexed by enumeration value. */
  const SCHEME_NAMES: seq<string> := ["right", "left", "midpoint", "trapezoidal"]

  /** The enumeration value of a scheme. */
  function Ordinal(t: Scheme): nat {
    match t
    case Right => 0
    case Left => 1
    case Midpoint => 2
    case Trapezoidal => 3
    case Other => 4
  }

  /** The scheme whose enumeration value is `i` (the cast `type = i`). */
  function SchemeAt(i: nat): (t: Scheme)
    requires i < |SCHEME_NAMES|
    ensures Ordinal(t) == i
  {
    [Right, Left, Midpoint, Trapezoidal][i]
  }

  /** The scheme a name denotes, `Other` for any name outside the table. */
  function SchemeOf(name: string): Scheme {
    if name == "right" then Right
    else if name == "left" then Left
    else if name == "midpoint" then Midpoint
    else if name == "trapezoidal" then Trapezoidal
    else Other
  }

  /** Name and scheme determine each other for the four real schemes. */
  lemma SchemeNamesRoundTrip(name: string, t: Scheme)
    ensures t != Other ==> SchemeOf(SCHEME_NAMES[Ordinal(t)]) == t
    ensures SchemeOf(name) != Other ==> SCHEME_NAMES[Ordinal(SchemeOf(name))] == name
    ensures SchemeOf(name) == Other <==> name !in SCHEME_NAMES
  {
  }

  /**
   * The linear scan of RiemannTypesStr in RunCommand: `type` starts at
   * Other and is overwritten by every index whose name matches.
   */
  method LookupScheme(name: string) returns (t: Scheme)
    ensures t == SchemeOf(name)
  {
    t := Other;
    for i := 0 to |SCHEME_NAMES|
      invariant t == Other <==> forall j :: 0 <= j < i ==> SCHEME_NAMES[j] != name
      invariant t != Other ==> Ordinal(t) < i && SCHEME_NAMES[Ordinal(t)] == name
    {
      if name == SCHEME_NAMES[i] {
        t := SchemeAt(i);
      }
    }
    assert SCHEME_NAMES == ["right", "left", "midpoint", "trapezoidal"];
    SchemeNamesRoundTrip(name, t);
  }

  /** The first abscissa of the walk over [lo, lo + n*h]. */
  function FirstSample(t: Scheme, lo: real, h: real): real
    requires t != Other
  {
    match t
    case Left => lo
    case Right => lo + h
    case Midpoint => lo + 0.5 * h
    case Trapezoidal => lo
  }

  /**
   * What one loop iteration adds when the walk stands at `x`: f(x), or for
   * the trapezoidal scheme the mean of f(x) and f(x + h), the left value
   * being asked for first.
   */
  function Contribution(f: real -> Result<real, string>, t: Scheme, x: real, h: real): Result<real, string> {
    if t == Trapezoidal then
      match f(x)
      case Err(e) => Err(e)
      case Ok(left) =>
        match f(x + h)
        case Err(e) => Err(e)
        case Ok(right) => Ok((left + right) / 2.0)
    else f(x)
  }

  /** Where the walk stands after `i` steps of width `h` from `x0`. */
  function Abscissa(x0: real, h: real, i: nat): real {
    x0 + i as real * h
  }

  /** One more step moves the walk by `h`. */
  lemma AbscissaNext(x0: real, h: real, i: nat)
    ensures Abscissa(x0, h, i) + h == Abscissa(x0, h, i + 1)
  {
    assert (i + 1) as real * h == i as real * h + h;
  }

  /**
   * The value of `result` after `k` iterations of the loop that starts at
   * `x0` and steps by `h`, or the first evaluation failure met.
   */
  function Accumulate(f: real -> Result<real, string>, t: Scheme, x0: real, h: real, k: nat): Result<real, string> {
    if k == 0 then Ok(0.0)
    else
      match Accumulate(f, t, x0, h, k - 1)
      case Err(e) => Err(e)
      case Ok(s) =>
        match Contribution(f, t, Abscissa(x0, h, k - 1), h)
        case Err(e) => Err(e)
        case Ok(c) => Ok(s + c)
  }

  /** The endpoints in ascending order, and whether they were swapped. */
  datatype Walk = Walk(lo: real, hi: real, negate: bool)

  /** RiemannSum swaps the endpoints when `start > end` and remembers to negate. */
  function Ordered(start: real, end: real): (w: Walk)
    ensures w.lo <= w.hi && w.negate == (start > end)
    ensures if w.negate then w.lo == end && w.hi == start else w.lo == start && w.hi == end
  {
    if start > end then Walk(end, start, true) else Walk(start, end, false)
  }

  /** The interval width (end - start) / numIntervals on the ascending interval. */
  function Width(w: Walk, n: nat): real
    requires n > 0
  {
    (w.hi - w.lo) / n as real
  }

  /** The ascending walk RiemannSum sets up for `n > 0` intervals. */
  function Sweep(f: real -> Result<real, string>, t: Scheme, start: real, end: real, n: nat): Result<real, string>
    requires t != Other && n > 0
  {
    var w := Ordered(start, end);
    Accumulate(f, t, FirstSample(t, w.lo, Width(w, n)), Width(w, n), n)
  }

  /** The accumulated sum times the width, negated when the endpoints were swapped. */
  function Scaled(s: real, start: real, end: real, n: nat): real
    requires n > 0
  {
    var h := Width(Ordered(start, end), n);
    if start > end then -(s * h) else s * h
  }

  /**
   * The Riemann sum of `f` over [start, end] with `n` intervals: the walk
   * runs over the ascending interval, the accumulated sum is multiplied by
   * the width once, and negated when the endpoints were swapped.
   */
  function Approximation(f: real -> Result<real, string>, t: Scheme, start: real, end: real, n: nat): Result<real, string>
    requires t != Other && n > 0
  {
    match Sweep(f, t, start, end, n)
    case Err(e) => Err(e)
    case Ok(s) => Ok(Scaled(s, start, end, n))
  }

  /**
   * What RiemannSum prints and returns. An invalid scheme or an
   * unparseable equation is rejected before anything is evaluated; with
   * zero intervals the width (hi - lo) / 0 is infinite or NaN, so the
   * product printed is NaN.
   */
  function RiemannOutcome(env: Env, t: Scheme, equationStr: string, start: real, end: real, n: nat): Outcome {
    if t == Other then Outcome(1, [TypeInvalid])
    else
      match env.parse(equationStr)
      case None => Outcome(1, [InvalidEquation])
      case Some(eq) =>
        if n == 0 then Outcome(0, [SumNaN])
        else
          match Approximation(env.findY(eq), t, start, end, n)
          case Err(e) => Outcome(1, [FindYError(e)])
          case Ok(v) => Outcome(0, [Sum(v)])
  }

  /** Once an iteration fails, every longer run fails with the same error. */
  lemma {:induction false} AccumulateFailurePersists(f: real -> Result<real, string>, t: Scheme, x0: real, h: real, i: nat, n: nat, e: string)
    requires i < n
    requires Accumulate(f, t, x0, h, i).Ok?
    requires Contribution(f, t, Abscissa(x0, h, i), h) == Err(e)
    ensures Accumulate(f, t, x0, h, n) == Err(e)
    decreases n
  {
    if n > i + 1 {
      AccumulateFailurePersists(f, t, x0, h, i, n - 1, e);
    }
  }

  /** One more successful iteration adds its contribution to the sum. */
  lemma AccumulateStep(f: real -> Result<real, string>, t: Scheme, x0: real, h: real, i: nat, c: real)
    requires Accumulate(f, t, x0, h, i).Ok?
    requires Contribution(f, t, Abscissa(x0, h, i), h) == Ok(c)
    ensures Accumulate(f, t, x0, h, i + 1) == Ok(Accumulate(f, t, x0, h, i).value + c)
  {
    assert i + 1 - 1 == i;
  }

  /** A completed walk with sum `s` yields `s * h`, negated when swapped. */
  lemma ApproximationOfSum(env: Env, t: Scheme, equationStr: string, start: real, end: real, n: nat, eq: Equation, s: real)
    requires t != Other && n > 0 && env.parse(equationStr) == Some(eq)
    requires Sweep(env.findY(eq), t, start, end, n) == Ok(s)
    ensures RiemannOutcome(env, t, equationStr, start, end, n) == Outcome(0, [Sum(Scaled(s, start, end, n))])
  {
  }

  /** RiemannSum's `result *= h` and `result *= -1` compute Scaled. */
  lemma ScaledInSteps(s: real, start: real, end: real, n: nat, h: real, makeNegative: bool)
    requires n > 0 && h == Width(Ordered(start, end), n) && makeNegative == (start > end)
    ensures (if makeNegative then s * h * -1.0 else s * h) == Scaled(s, start, end, n)
  {
    assert s * h * -1.0 == -(s * h);
  }

  /** A walk that meets a failed evaluation makes RiemannSum report it. */
  lemma ApproximationOfFailure(env: Env, t: Scheme, equationStr: string, start: real, end: real, n: nat, eq: Equation, e: string)
    requires t != Other && n > 0 && env.parse(equationStr) == Some(eq)
    requires Sweep(env.findY(eq), t, start, end, n) == Err(e)
    ensures RiemannOutcome(env, t, equationStr, start, end, n) == Outcome(1, [FindYError(e)])
  {
  }

  /**
   * The `for` loop of RiemannSum: `n` iterations from `x0`, stepping by `h`,
   * stopping at the first evaluation failure.
   */
  method SumSamples(f: real -> Result<real, string>, t: Scheme, x0: real, h: real, n: nat) returns (acc: Result<real, string>)
    ensures acc == Accumulate(f, t, x0, h, n)
  {
    var x := x0;
    var result := 0.0;
    var i: nat := 0;
    while i < n
      invariant i <= n
      invariant x == Abscissa(x0, h, i)
      invariant Accumulate(f, t, x0, h, i) == Ok(result)
    {
      if t == Trapezoidal {
        var left := f(x);
        if left.Err? {
          AccumulateFailurePersists(f, t, x0, h, i, n, left.error);
          return Err(left.error);
        }
        x := x + h;
        var right := f(x);
        if right.Err? {
          AccumulateFailurePersists(f, t, x0, h, i, n, right.error);
          return Err(right.error);
        }
        AccumulateStep(f, t, x0, h, i, (left.value + right.value) / 2.0);
        result := result + (left.value + right.value) / 2.0;
      } else {
        var y := f(x);
        if y.Err? {
          AccumulateFailurePersists(f, t, x0, h, i, n, y.error);
          return Err(y.error);
        }
        AccumulateStep(f, t, x0, h, i, y.value);
        result := result + y.value;
        x := x + h;
      }
      AbscissaNext(x0, h, i);
      i := i + 1;
    }
    return Ok(result);
  }

  /** RiemannSum: validate, walk the ascending interval, scale, negate. */
  method RiemannSum(env: Env, t: Scheme, equationStr: string, start: real, end: real, n: nat) returns (o: Outcome)
    ensures o == RiemannOutcome(env, t, equationStr, start, end, n)
  {
    if t == Other {
      return Outcome(1, [TypeInvalid]);
    }
    var parsed := env.parse(equationStr);
    if parsed.None? {
      return Outcome(1, [InvalidEquation]);
    }
    var lo, hi, makeNegative := start, end, false;
    if lo > hi {
      lo, hi, makeNegative := end, start, true;
    }
    if n == 0 {
      // (hi - lo) / 0 is infinite or NaN; the loop does not run and the
      // product 0 * h is NaN.
      return Outcome(0, [SumNaN]);
    }
    var h := (hi - lo) / n as real;
    assert Walk(lo, hi, makeNegative) == Ordered(start, end);
    var acc := SumSamples(env.findY(parsed.value), t, FirstSample(t, lo, h), h, n);
    if acc.Err? {
      ApproximationOfFailure(env, t, equationStr, start, end, n, parsed.value, acc.error);
      return Outcome(1, [FindYError(acc.error)]);
    }
    var result := acc.value;
    ApproximationOfSum(env, t, equationStr, start, end, n, parsed.value, result);
    ScaledInSteps(result, start, end, n, h, makeNegative);
    result := result * h;
    if makeNegative {
      result := result * -1.0;
    }
    return Outcome(0, [Sum(result)]);
  }
}
