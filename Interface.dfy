/**
 * The boundary between the command interpreter and its collaborators:
 * the polynomial engine (LibMath), the C library's number parsers, and
 * the abstract form of everything the interpreter prints.
 */
module Interface {
  import opened Wrappers

  /** One monomial `coefficient * x^exponent`. */
  datatype Term = Term(coefficient: real, exponent: real)

  /** An ordered sum of terms; its length travels with it. */
  type Equation = seq<Term>

  /**
   * The foreign functions the interpreter calls, as parameters.
   *  - parse:         StringToEquation; None stands for a NULL result.
   *  - findY:         FindY; a failure carries the text LibMathErr() reports.
   *  - differentiate: DifferentiateEquation (its result is never checked).
   *  - integrate:     IntegrateEquation (its result is never checked).
   *  - strtod:        strtod on a whole token; Some only when every
   *                   character of the token is consumed.
   *  - strtoll:       strtoll in base 10, with the same full-consumption rule.
   */
  datatype Env = Env(
    parse: string -> Option<Equation>,
    findY: Equation -> real -> Result<real, string>,
    differentiate: Equation -> Equation,
    integrate: Equation -> Equation,
    strtod: string -> Option<real>,
    strtoll: string -> Option<int>)

  /** The five entries of the per-command help table, by topic. */
  datatype HelpPage = DxdyPage | IntegralPage | RiemannPage | LimitPage | YPage

  /**
   * One printed line, abstracted from its `printf` formatting.
   * Fixed texts (mascot, help pages, banner) are opaque constants.
   */
  datatype Line =
    | Invalid                     // INVALID
    | InvalidUsage                // INVALID_USAGE
    | InvalidEquation             // INVALID_EQUATION
    | TypeInvalid                 // "type was invalid."
    | FindYError(detail: string)  // "Error in FindY: %s"
    | Mascot                      // CANARY_STR
    | GeneralHelp                 // HELP_STR
    | Help(page: HelpPage)        // one entry of functionHelp
    | ValueAt(x: real, y: real)   // "f(%lf) = %lf"
    | Derivative(eq: Equation)    // PrintEquation of the derivative
    | Antiderivative(eq: Equation) // PrintEquation of the integral, then " + C"
    | Sum(v: real)                // the Riemann sum
    | SumNaN                      // the Riemann sum when it is not a number
    | Below(x: real, y: real)     // "x->%lf- = %lf"
    | Above(x: real, y: real)     // "x->%lf+ = %lf"
    | LimitDne(x: real)           // "x->%lf = DNE"
    | LimitIs(x: real, y: real)   // "x->%lf = %lf"
    | Banner                      // version and licence lines
    | Prompt                      // ":> "
    | ReadFailure                 // "Could not read user input. Exiting..."
  {
    /** The lines that report a failure. */
    predicate IsError() {
      Invalid? || InvalidUsage? || InvalidEquation? || TypeInvalid? || FindYError? || ReadFailure?
    }
  }

  /** What a command routine returns (its `int` code) and what it printed. */
  datatype Outcome = Outcome(rc: int, out: seq<Line>)
}
