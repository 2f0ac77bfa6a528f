/**
 * What RunCommand promises its caller: the three return codes and what
 * each prints, the keywords it knows, and the quirks of its checks (the
 * scheme token is never rejected, the routines' failures are not passed
 * on, the equation is the raw rest of the line). The scenarios at the end
 * run concrete lines through the dispatcher.
 */
module DispatcherLaws {
  import opened Wrappers
  import opened Interface
  import opened Tokenizer
  import opened Riemann
  import opened Commands
  import opened Help
  import opened Dispatcher
  import opened RiemannLaws

  /** The command keywords RunCommand compares against. */
  const KEYWORDS: set<string> := {"canary", "y", "dxdy", "S", "riemann", "lim", "help", "exit"}

  /** A failed argument check prints INVALID or INVALID_USAGE. */
  lemma ParseErrors(env: Env, line: string)
    requires Defined(line)
    ensures Parse(env, line).Err? ==> Parse(env, line).error == Invalid || Parse(env, line).error == InvalidUsage
  {
  }

  /**
   * RunCommand returns 2 exactly for `exit`, 1 exactly when a check in
   * RunCommand itself fails (printing one error line), and 0 otherwise,
   * whatever the called routine returned.
   */
  lemma ReturnCodes(env: Env, line: string)
    requires Defined(line)
    ensures var o := Dispatch(env, line);
      && (o.rc == 0 || o.rc == 1 || o.rc == 2)
      && (o.rc == 2 <==> Keyword(line) == Some("exit"))
      && (o.rc == 1 <==> Parse(env, line).Err?)
      && (o.rc == 2 ==> o.out == [])
      && (o.rc == 1 ==> o.out == [Invalid] || o.out == [InvalidUsage])
  {
    ExitCode(env, line);
    ParseErrors(env, line);
  }

  /** An empty line, or a first word that is no keyword, prints INVALID. */
  lemma UnknownCommand(env: Env, line: string)
    requires Keyword(line).None? || Keyword(line).value !in KEYWORDS
    ensures Defined(line) && Dispatch(env, line) == Outcome(1, [Invalid])
  {
  }

  /** `exit` ends the session whatever follows it on the line. */
  lemma ExitIgnoresArguments(env: Env, line: string)
    requires Keyword(line) == Some("exit")
    ensures Defined(line) && Dispatch(env, line) == Outcome(2, [])
  {
  }

  /** `canary` takes no arguments. */
  lemma CanaryUsage(env: Env, line: string)
    requires Keyword(line) == Some("canary")
    ensures Defined(line)
    ensures StrTok(line, SEPARATORS).1 == [] ==> Dispatch(env, line) == Outcome(0, [Mascot])
    ensures StrTok(line, SEPARATORS).1 != [] ==> Dispatch(env, line) == Outcome(1, [InvalidUsage])
  {
  }

  /**
   * `dxdy` and `S` hand the raw rest of the line to the routine, and an
   * equation the routine cannot parse is reported with return code 0.
   */
  lemma EquationCommands(env: Env, line: string)
    requires Keyword(line) == Some("dxdy") || Keyword(line) == Some("S")
    ensures Defined(line)
    ensures var rest := StrTok(line, SEPARATORS).1;
      && (rest == [] ==> Dispatch(env, line) == Outcome(1, [InvalidUsage]))
      && (rest != [] && Keyword(line) == Some("dxdy") ==> Dispatch(env, line) == Outcome(0, Differentiate(env, rest).out))
      && (rest != [] && Keyword(line) == Some("S") ==> Dispatch(env, line) == Outcome(0, IndefiniteIntegral(env, rest).out))
      && (rest != [] && env.parse(rest).None? ==> Dispatch(env, line) == Outcome(0, [InvalidEquation]))
  {
  }

  /**
   * `y` needs an x that strtod reads whole and a non-empty rest; a failed
   * check prints INVALID_USAGE, otherwise Y runs on the raw rest and
   * RunCommand returns 0.
   */
  lemma YDispatch(env: Env, line: string)
    requires Keyword(line) == Some("y")
    ensures Defined(line)
    ensures var (xTok, rest) := StrTok(StrTok(line, SEPARATORS).1, SEPARATORS);
      && (xTok.Some? && env.strtod(xTok.value).Some? && rest != [] ==>
            Dispatch(env, line) == Outcome(0, Y(env, env.strtod(xTok.value).value, rest).out))
      && (!(xTok.Some? && env.strtod(xTok.value).Some? && rest != []) ==>
            Dispatch(env, line) == Outcome(1, [InvalidUsage]))
  {
    assert Parse(env, line) == ParseY(env, StrTok(line, SEPARATORS).1);
  }

  /**
   * `lim` needs an x that strtod reads whole and a non-empty rest; a failed
   * check prints INVALID_USAGE, otherwise OneSidedLimit runs on the raw
   * rest and RunCommand returns 0.
   */
  lemma LimitDispatch(env: Env, line: string)
    requires Keyword(line) == Some("lim")
    ensures Defined(line)
    ensures var (xTok, rest) := StrTok(StrTok(line, SEPARATORS).1, SEPARATORS);
      && (xTok.Some? && env.strtod(xTok.value).Some? && rest != [] ==>
            Dispatch(env, line) == Outcome(0, OneSidedLimit(env, env.strtod(xTok.value).value, rest).out))
      && (!(xTok.Some? && env.strtod(xTok.value).Some? && rest != []) ==>
            Dispatch(env, line) == Outcome(1, [InvalidUsage]))
  {
    assert Parse(env, line) == ParseLimit(env, StrTok(line, SEPARATORS).1);
  }

  /**
   * `help` prints the general text with no topic and otherwise ShowHelp's
   * output for the raw rest of the line; an unknown topic prints INVALID,
   * yet RunCommand still returns 0.
   */
  lemma HelpDispatch(env: Env, line: string)
    requires Keyword(line) == Some("help")
    ensures Defined(line)
    ensures var topic := StrTok(line, SEPARATORS).1;
      && Dispatch(env, line).rc == 0
      && (topic == [] ==> Dispatch(env, line).out == [GeneralHelp])
      && (topic != [] ==> Dispatch(env, line).out == HelpFor(topic).out)
      && (topic != [] && HelpFor(topic).rc != 0 ==> Dispatch(env, line).out == [Invalid])
  {
    var topic := StrTok(line, SEPARATORS).1;
    if topic != [] {
      HelpForCases(topic);
    }
  }

  /** HelpFor either finds a page or prints INVALID with code 1. */
  lemma HelpForCases(topic: string)
    ensures HelpFor(topic).rc != 0 ==> HelpFor(topic) == Outcome(1, [Invalid])
  {
    HelpFromCases(topic, 0);
  }

  /** HelpFrom either finds a page or prints INVALID with code 1. */
  lemma {:induction false} HelpFromCases(topic: string, i: nat)
    requires i <= |FUNCTION_HELP|
    ensures HelpFrom(topic, i).rc != 0 ==> HelpFrom(topic, i) == Outcome(1, [Invalid])
    decreases |FUNCTION_HELP| - i
  {
    if i < |FUNCTION_HELP| && FUNCTION_HELP[i].topic != topic {
      HelpFromCases(topic, i + 1);
    }
  }

  /**
   * The scheme check of `riemann` never fires: a failed check is always
   * about the numbers, and a parsed command carries the scheme the name
   * looks up, `Other` for a name not in the table.
   */
  lemma SchemeNeverRejected(env: Env, next: string)
    requires StrTok(next, SEPARATORS).0.Some?
    ensures var parsed := ParseRiemann(env, next);
      && (parsed.Err? ==> parsed.error == InvalidUsage)
      && (parsed.Ok? ==> parsed.value.RiemannCmd? && parsed.value.scheme == SchemeOf(StrTok(next, SEPARATORS).0.value))
  {
  }

  /**
   * The number checks of `riemann`: start and end are tokens strtod reads
   * whole, the count a token strtoll reads whole and not negative; the
   * command then carries those values and the raw rest of the line, and
   * any other input is INVALID_USAGE.
   */
  lemma SamplingChecks(env: Env, scheme: Scheme, r1: string)
    ensures var (sTok, r2) := StrTok(r1, SEPARATORS);
      var (eTok, r3) := StrTok(r2, SEPARATORS);
      var (cTok, r4) := StrTok(r3, SEPARATORS);
      var ok := && sTok.Some? && env.strtod(sTok.value).Some?
                && eTok.Some? && env.strtod(eTok.value).Some?
                && cTok.Some? && env.strtoll(cTok.value).Some? && env.strtoll(cTok.value).value >= 0;
      && (ok ==> ParseSampling(env, scheme, r1) == Ok(RiemannCmd(scheme, env.strtod(sTok.value).value,
                   env.strtod(eTok.value).value, env.strtoll(cTok.value).value, r4)))
      && (!ok ==> ParseSampling(env, scheme, r1) == Err(InvalidUsage))
  {
  }

  /**
   * A whole `riemann` line: the scheme is the table's name for the first
   * token, the numbers pass SamplingChecks' tests, and a failed test prints
   * INVALID_USAGE with return code 1.
   */
  lemma RiemannDispatch(env: Env, line: string)
    requires Keyword(line) == Some("riemann") && Defined(line)
    ensures var (typeTok, r1) := StrTok(StrTok(line, SEPARATORS).1, SEPARATORS);
      var (sTok, r2) := StrTok(r1, SEPARATORS);
      var (eTok, r3) := StrTok(r2, SEPARATORS);
      var (cTok, r4) := StrTok(r3, SEPARATORS);
      var ok := && sTok.Some? && env.strtod(sTok.value).Some?
                && eTok.Some? && env.strtod(eTok.value).Some?
                && cTok.Some? && env.strtoll(cTok.value).Some? && env.strtoll(cTok.value).value >= 0;
      && typeTok.Some?
      && (ok ==> Parse(env, line) == Ok(RiemannCmd(SchemeOf(typeTok.value), env.strtod(sTok.value).value,
                   env.strtod(eTok.value).value, env.strtoll(cTok.value).value, r4)))
      && (!ok ==> Dispatch(env, line) == Outcome(1, [InvalidUsage]))
  {
    var (typeTok, r1) := StrTok(StrTok(line, SEPARATORS).1, SEPARATORS);
    assert Parse(env, line) == ParseRiemann(env, StrTok(line, SEPARATORS).1);
    SamplingChecks(env, SchemeOf(typeTok.value), r1);
  }

  /**
   * A `riemann` line whose scheme is not in the table passes every check
   * and reaches RiemannSum, which prints TYPE_INVALID; RunCommand returns 0.
   */
  lemma UnknownSchemeReachesSum(env: Env, line: string, start: real, end: real, count: nat, eq: string)
    requires Defined(line) && Parse(env, line) == Ok(RiemannCmd(Other, start, end, count, eq))
    ensures Dispatch(env, line) == Outcome(0, [TypeInvalid])
  {
  }

  /**
   * The interval count is cast to a 32-bit `unsigned long`: a count of
   * 2^32 passes the `numIntervals >= 0` check and becomes 0 intervals,
   * which prints NaN.
   */
  lemma WrappedCount(env: Env, line: string, t: Scheme, start: real, end: real, eq: string, e: Equation)
    requires t != Other && env.parse(eq) == Some(e)
    requires Defined(line) && Parse(env, line) == Ok(RiemannCmd(t, start, end, ULONG_MODULUS, eq))
    ensures Dispatch(env, line) == Outcome(0, [SumNaN])
  {
    assert ToULong(ULONG_MODULUS) == 0;
  }

  /** A word with no space or newline holds no separator. */
  lemma Word(w: string)
    requires forall j :: 0 <= j < |w| ==> w[j] != ' ' && w[j] != '\n'
    ensures NoDelims(w, SEPARATORS)
  {
  }

  /** A misspelt keyword, such as in `ridmann left 0 1 2 x`, prints INVALID whatever follows. */
  lemma MisspeltKeyword(env: Env, args: string)
    ensures var line := "ridmann " + args;
      Defined(line) && Dispatch(env, line) == Outcome(1, [Invalid])
  {
    assert "ridmann " + args == "ridmann" + [' '] + args;
    Word("ridmann");
    StrTokWord("ridmann", ' ', args, SEPARATORS);
    UnknownCommand(env, "ridmann " + args);
  }

  /**
   * `y 2 <equation>`, for instance `y 2 3x^2 + 1`: the equation is
   * everything after the number, spaces included, and the value of it at
   * 2 is printed.
   */
  lemma EvaluateScenario(env: Env, eqStr: string, e: Equation, v: real)
    requires eqStr != [] && env.strtod("2") == Some(2.0) && env.parse(eqStr) == Some(e)
    requires env.findY(e)(2.0) == Ok(v)
    ensures var line := "y 2 " + eqStr;
      Defined(line) && Dispatch(env, line) == Outcome(0, [ValueAt(2.0, v)])
  {
    assert "y 2 " + eqStr == "y" + [' '] + ("2" + [' '] + eqStr);
    Word("y");
    Word("2");
    StrTokWord("y", ' ', "2" + [' '] + eqStr, SEPARATORS);
    StrTokWord("2", ' ', eqStr, SEPARATORS);
  }

  /** The arguments `0 1 2 x` after a scheme name. */
  lemma RiemannArgs(env: Env, scheme: string)
    requires scheme != [] && NoDelims(scheme, SEPARATORS)
    requires env.strtod("0") == Some(0.0) && env.strtod("1") == Some(1.0) && env.strtoll("2") == Some(2)
    ensures StrTok(scheme + " 0 1 2 x", SEPARATORS).0.Some?
    ensures ParseRiemann(env, scheme + " 0 1 2 x") == Ok(RiemannCmd(SchemeOf(scheme), 0.0, 1.0, 2, "x"))
  {
    assert scheme + " 0 1 2 x" == scheme + [' '] + "0 1 2 x";
    assert "0 1 2 x" == "0" + [' '] + "1 2 x";
    assert "1 2 x" == "1" + [' '] + "2 x";
    assert "2 x" == "2" + [' '] + "x";
    Word("0");
    Word("1");
    Word("2");
    StrTokWord(scheme, ' ', "0 1 2 x", SEPARATORS);
    StrTokWord("0", ' ', "1 2 x", SEPARATORS);
    StrTokWord("1", ' ', "2 x", SEPARATORS);
    StrTokWord("2", ' ', "x", SEPARATORS);
    assert RealArg(env, "0 1 2 x") == Ok((0.0, "1 2 x"));
    assert RealArg(env, "1 2 x") == Ok((1.0, "2 x"));
  }

  /** The line `riemann <scheme> 0 1 2 x` parses to a Riemann command. */
  lemma RiemannTail(env: Env, scheme: string)
    requires scheme != [] && NoDelims(scheme, SEPARATORS)
    requires env.strtod("0") == Some(0.0) && env.strtod("1") == Some(1.0) && env.strtoll("2") == Some(2)
    ensures var line := "riemann " + scheme + " 0 1 2 x";
      Defined(line) && Parse(env, line) == Ok(RiemannCmd(SchemeOf(scheme), 0.0, 1.0, 2, "x"))
  {
    var line := "riemann " + scheme + " 0 1 2 x";
    assert line == "riemann" + [' '] + (scheme + " 0 1 2 x");
    Word("riemann");
    StrTokWord("riemann", ' ', scheme + " 0 1 2 x", SEPARATORS);
    RiemannArgs(env, scheme);
  }

  /** `riemann <scheme> 0 1 2 x` runs RiemannSum over [0, 1] with 2 intervals. */
  lemma RiemannLine(env: Env, scheme: string)
    requires scheme != [] && NoDelims(scheme, SEPARATORS)
    requires env.strtod("0") == Some(0.0) && env.strtod("1") == Some(1.0) && env.strtoll("2") == Some(2)
    ensures var line := "riemann " + scheme + " 0 1 2 x";
      Defined(line) && Dispatch(env, line) == Outcome(0, RiemannOutcome(env, SchemeOf(scheme), "x", 0.0, 1.0, 2).out)
  {
    RiemannTail(env, scheme);
    assert ToULong(2) == 2;
  }

  /**
   * `riemann simpson 0 1 2 x`, or any other name not in the table, prints
   * TYPE_INVALID and returns 0.
   */
  lemma UnknownSchemeScenario(env: Env, scheme: string)
    requires scheme != [] && NoDelims(scheme, SEPARATORS) && scheme !in SCHEME_NAMES
    requires env.strtod("0") == Some(0.0) && env.strtod("1") == Some(1.0) && env.strtoll("2") == Some(2)
    ensures var line := "riemann " + scheme + " 0 1 2 x";
      Defined(line) && Dispatch(env, line) == Outcome(0, [TypeInvalid])
  {
    RiemannLine(env, scheme);
    SchemeNamesRoundTrip(scheme, Other);
  }

  /** The left sum of f(x) = x over [0, 1] with 2 intervals. */
  lemma LeftSumOfIdentity(env: Env, e: Equation)
    requires env.parse("x") == Some(e) && forall v :: env.findY(e)(v) == Ok(v)
    ensures RiemannOutcome(env, Left, "x", 0.0, 1.0, 2) == Outcome(0, [Sum(0.25)])
  {
    LeftExample(env.findY(e));
  }

  /** `riemann left 0 1 2 x` for f(x) = x prints the left sum 0.25. */
  lemma LeftSumScenario(env: Env, e: Equation)
    requires env.strtod("0") == Some(0.0) && env.strtod("1") == Some(1.0) && env.strtoll("2") == Some(2)
    requires env.parse("x") == Some(e) && forall v :: env.findY(e)(v) == Ok(v)
    ensures var line := "riemann " + "left" + " 0 1 2 x";
      Defined(line) && Dispatch(env, line) == Outcome(0, [Sum(0.25)])
  {
    Word("left");
    RiemannLine(env, "left");
    assert SCHEME_NAMES[1] == "left";
    SchemeNamesRoundTrip("left", Left);
    LeftSumOfIdentity(env, e);
  }
}
