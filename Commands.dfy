/**
 * The command routines without loops: Canary, Y, Differentiate,
 * IndefiniteIntegral and OneSidedLimit. Each returns its code (0 or 1)
 * and the lines it printed.
 */
module Commands {
  import opened Wrappers
  import opened Interface
  import opened Tokenizer

  /** The separator OneSidedLimit splits its argument on. */
  const EQUATION_SEP: set<char> := {','}

  /** Canary: prints the mascot and succeeds. */
  function Canary(): (o: Outcome)
    ensures o.rc == 0 && o.out == [Mascot]
  {
    Outcome(0, [Mascot])
  }

  /** Y: the value of the equation at `x`, or why it could not be had. */
  function Y(env: Env, x: real, equationStr: string): (o: Outcome)
    ensures o.rc == 0 <==> env.parse(equationStr).Some? && env.findY(env.parse(equationStr).value)(x).Ok?
    ensures o.rc == 0 ==> o.out == [ValueAt(x, env.findY(env.parse(equationStr).value)(x).value)]
    ensures o.rc != 0 ==> o.rc == 1 && |o.out| == 1 && o.out[0].IsError()
    ensures env.parse(equationStr).None? ==> o.out == [InvalidEquation]
    ensures env.parse(equationStr).Some? && env.findY(env.parse(equationStr).value)(x).Err? ==>
      o.out == [FindYError(env.findY(env.parse(equationStr).value)(x).error)]
  {
    match env.parse(equationStr)
    case None => Outcome(1, [InvalidEquation])
    case Some(equation) =>
      match env.findY(equation)(x)
      case Err(e) => Outcome(1, [FindYError(e)])
      case Ok(y) => Outcome(0, [ValueAt(x, y)])
  }

  /** Differentiate: prints the derivative of a parseable equation. */
  function Differentiate(env: Env, equationStr: string): (o: Outcome)
    ensures o.rc == 0 <==> env.parse(equationStr).Some?
    ensures o.rc == 0 ==> o.out == [Derivative(env.differentiate(env.parse(equationStr).value))]
    ensures o.rc != 0 ==> o == Outcome(1, [InvalidEquation])
  {
    match env.parse(equationStr)
    case None => Outcome(1, [InvalidEquation])
    case Some(equation) => Outcome(0, [Derivative(env.differentiate(equation))])
  }

  /** IndefiniteIntegral: prints the antiderivative (followed by " + C"). */
  function IndefiniteIntegral(env: Env, equationStr: string): (o: Outcome)
    ensures o.rc == 0 <==> env.parse(equationStr).Some?
    ensures o.rc == 0 ==> o.out == [Antiderivative(env.integrate(env.parse(equationStr).value))]
    ensures o.rc != 0 ==> o == Outcome(1, [InvalidEquation])
  {
    match env.parse(equationStr)
    case None => Outcome(1, [InvalidEquation])
    case Some(equation) => Outcome(0, [Antiderivative(env.integrate(equation))])
  }

  /** The classification line: the common value, or DNE when the sides differ. */
  function Classify(x: real, lessResult: real, greaterResult: real): (l: Line)
    ensures l == LimitDne(x) <==> lessResult != greaterResult
    ensures l != LimitDne(x) ==> l == LimitIs(x, lessResult)
  {
    if lessResult == greaterResult then LimitIs(x, lessResult) else LimitDne(x)
  }

  /**
   * The shape of the `k`-th line of a limit report: below, above,
   * classification, value at the point.
   */
  predicate ReportLine(out: seq<Line>, k: nat, x: real)
    requires k < |out|
  {
    match k
    case 0 => out[0].Below? && out[0].x == x
    case 1 => out[1].Above? && out[1].x == x
    case 2 => 2 <= |out| - 1 && out[0].Below? && out[1].Above? && out[2] == Classify(x, out[0].y, out[1].y)
    case 3 => out[3].ValueAt? && out[3].x == x
    case _ => false
  }

  /**
   * The evaluation half of OneSidedLimit: below, then above, then the
   * classification, then the value at `x`; a failure ends the report with
   * its message, leaving the lines already printed in place.
   */
  function EvaluateLimit(env: Env, x: real, lessThan: Equation, equalTo: Equation, greaterThan: Equation): (o: Outcome)
    ensures o.rc == 0 <==> env.findY(lessThan)(x).Ok? && env.findY(greaterThan)(x).Ok? && env.findY(equalTo)(x).Ok?
    ensures o.rc == 0 ==>
      var lessResult, greaterResult := env.findY(lessThan)(x).value, env.findY(greaterThan)(x).value;
      o.out == [Below(x, lessResult), Above(x, greaterResult), Classify(x, lessResult, greaterResult),
                ValueAt(x, env.findY(equalTo)(x).value)]
    ensures env.findY(lessThan)(x).Err? ==> o.out == [FindYError(env.findY(lessThan)(x).error)]
    ensures env.findY(lessThan)(x).Ok? && env.findY(greaterThan)(x).Err? ==>
      o.out == [Below(x, env.findY(lessThan)(x).value), FindYError(env.findY(greaterThan)(x).error)]
    ensures env.findY(lessThan)(x).Ok? && env.findY(greaterThan)(x).Ok? && env.findY(equalTo)(x).Err? ==>
      var lessResult, greaterResult := env.findY(lessThan)(x).value, env.findY(greaterThan)(x).value;
      o.out == [Below(x, lessResult), Above(x, greaterResult), Classify(x, lessResult, greaterResult),
                FindYError(env.findY(equalTo)(x).error)]
  {
    match env.findY(lessThan)(x)
    case Err(e) => Outcome(1, [FindYError(e)])
    case Ok(lessResult) =>
      match env.findY(greaterThan)(x)
      case Err(e) => Outcome(1, [Below(x, lessResult), FindYError(e)])
      case Ok(greaterResult) =>
        var shown := [Below(x, lessResult), Above(x, greaterResult), Classify(x, lessResult, greaterResult)];
        match env.findY(equalTo)(x)
        case Err(e) => Outcome(1, shown + [FindYError(e)])
        case Ok(atResult) => Outcome(0, shown + [ValueAt(x, atResult)])
  }

  /**
   * OneSidedLimit: splits `less,equal,greater` with strtok_s on ',' (the
   * third segment is the raw rest), parsing each segment before the next
   * is read, then evaluates.
   */
  function OneSidedLimit(env: Env, x: real, equationStr: string): (o: Outcome)
    ensures o.rc == 0 || o.rc == 1
    ensures 1 <= |o.out| <= 4 && (o.rc == 0 ==> |o.out| == 4)
    ensures o.rc == 1 <==> o.out[|o.out| - 1].IsError()
    ensures forall k :: 0 <= k < |o.out| - 1 ==> !o.out[k].IsError()
    ensures forall k :: 0 <= k < |o.out| && !o.out[k].IsError() ==> ReportLine(o.out, k, x)
  {
    var (lessThanStr, rest) := StrTok(equationStr, EQUATION_SEP);
    if lessThanStr.None? then Outcome(1, [InvalidUsage])
    else
      match env.parse(lessThanStr.value)
      case None => Outcome(1, [InvalidEquation])
      case Some(lessThan) =>
        var (equalToStr, greaterThanStr) := StrTok(rest, EQUATION_SEP);
        if equalToStr.None? then Outcome(1, [InvalidUsage])
        else
          match env.parse(equalToStr.value)
          case None => Outcome(1, [InvalidEquation])
          case Some(equalTo) =>
            if greaterThanStr == [] then Outcome(1, [InvalidUsage])
            else
              match env.parse(greaterThanStr)
              case None => Outcome(1, [InvalidEquation])
              case Some(greaterThan) => EvaluateLimit(env, x, lessThan, equalTo, greaterThan)
  }
}
