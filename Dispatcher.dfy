/**
 * RunCommand: cut the line with strtok_s on " \n", match the keyword,
 * check the positional arguments, and call the command routine. The
 * model splits this into Parse (the checks, producing a Command) and
 * Execute (the call); RunCommand is proved to agree with the two.
 */
module Dispatcher {
  import opened Wrappers
  import opened Interface
  import opened Tokenizer
  import opened Riemann
  import opened Commands
  import opened Help

  /** The separators RunCommand tokenizes on. */
  const SEPARATORS: set<char> := {' ', '\n'}

  /** 2^32: `unsigned long` is 32 bits wide on the platform strtok_s comes from. */
  const ULONG_MODULUS: int := 0x1_0000_0000

  /** The cast `(unsigned long)numIntervals` of a non-negative `long long`. */
  function ToULong(v: int): (r: nat)
    requires v >= 0
    ensures r < ULONG_MODULUS && (v < ULONG_MODULUS ==> r == v)
    ensures exists q: nat :: v == q * ULONG_MODULUS + r
  {
    assert v == (v / ULONG_MODULUS) * ULONG_MODULUS + v % ULONG_MODULUS;
    v % ULONG_MODULUS
  }

  /**
   * A dispatched command with its checked arguments. Equation texts are
   * the raw rest of the line, not trimmed.
   */
  datatype Command =
    | CanaryCmd
    | YCmd(x: real, equation: string)
    | DxdyCmd(equation: string)
    | IntegralCmd(equation: string)
    | RiemannCmd(scheme: Scheme, start: real, end: real, count: nat, equation: string)
    | LimitCmd(x: real, equations: string)
    | HelpCmd(topic: Option<string>)
    | ExitCmd

  /** The first token of a line, the command keyword. */
  function Keyword(line: string): Option<string> {
    StrTok(line, SEPARATORS).0
  }

  /**
   * The lines RunCommand has defined behaviour on: `riemann` with no
   * further token dereferences the NULL scheme token.
   */
  predicate Defined(line: string) {
    var (command, rest) := StrTok(line, SEPARATORS);
    !(command == Some("riemann") && StrTok(rest, SEPARATORS).0.None?)
  }

  /** A numeric token read in full by strtod; what follows it on the line. */
  function RealArg(env: Env, s: string): Result<(real, string), Line> {
    var (tok, rest) := StrTok(s, SEPARATORS);
    if tok.None? then Err(InvalidUsage)
    else
      match env.strtod(tok.value)
      case None => Err(InvalidUsage)
      case Some(v) => Ok((v, rest))
  }

  /** The checks of `y <x> <equation>` after the keyword. */
  function ParseY(env: Env, next: string): Result<Command, Line> {
    match RealArg(env, next)
    case Err(l) => Err(l)
    case Ok((x, eq)) => if eq == [] then Err(InvalidUsage) else Ok(YCmd(x, eq))
  }

  /**
   * The checks of `riemann <type> <start> <end> <count> <equation>` after
   * the keyword. The scheme name is looked up but never rejected here.
   */
  function ParseRiemann(env: Env, next: string): Result<Command, Line>
    requires StrTok(next, SEPARATORS).0.Some?
  {
    var (typeStr, r1) := StrTok(next, SEPARATORS);
    ParseSampling(env, SchemeOf(typeStr.value), r1)
  }

  /** The checks of `<start> <end> <count> <equation>` once the scheme is known. */
  function ParseSampling(env: Env, scheme: Scheme, r1: string): Result<Command, Line> {
    match RealArg(env, r1)
    case Err(l) => Err(l)
    case Ok((start, r2)) =>
      match RealArg(env, r2)
      case Err(l) => Err(l)
      case Ok((end, r3)) =>
        var (intervalStr, r4) := StrTok(r3, SEPARATORS);
        if intervalStr.None? then Err(InvalidUsage)
        else
          match env.strtoll(intervalStr.value)
          case None => Err(InvalidUsage)
          case Some(count) =>
            if count < 0 then Err(InvalidUsage) else Ok(RiemannCmd(scheme, start, end, count, r4))
  }

  /** The checks of `lim <x> <equations>` after the keyword. */
  function ParseLimit(env: Env, next: string): Result<Command, Line> {
    match RealArg(env, next)
    case Err(l) => Err(l)
    case Ok((x, eqs)) => if eqs == [] then Err(InvalidUsage) else Ok(LimitCmd(x, eqs))
  }

  /**
   * The argument checks of RunCommand, in the order it makes them; the
   * error is the line it prints.
   */
  function Parse(env: Env, line: string): Result<Command, Line>
    requires Defined(line)
  {
    var (command, next) := StrTok(line, SEPARATORS);
    match command
    case None => Err(Invalid)
    case Some(keyword) =>
      if keyword == "canary" then
        if next == [] then Ok(CanaryCmd) else Err(InvalidUsage)
      else if keyword == "y" then ParseY(env, next)
      else if keyword == "dxdy" then
        if next == [] then Err(InvalidUsage) else Ok(DxdyCmd(next))
      else if keyword == "S" then
        if next == [] then Err(InvalidUsage) else Ok(IntegralCmd(next))
      else if keyword == "riemann" then ParseRiemann(env, next)
      else if keyword == "lim" then ParseLimit(env, next)
      else if keyword == "help" then
        Ok(HelpCmd(if next == [] then None else Some(next)))
      else if keyword == "exit" then
        Ok(ExitCmd)
      else Err(Invalid)
  }

  /**
   * Calling the command routine. RunCommand ignores the routine's return
   * code, so every command but `exit` returns 0.
   */
  function Execute(env: Env, cmd: Command): Outcome {
    match cmd
    case CanaryCmd => Outcome(0, Canary().out)
    case YCmd(x, eq) => Outcome(0, Y(env, x, eq).out)
    case DxdyCmd(eq) => Outcome(0, Differentiate(env, eq).out)
    case IntegralCmd(eq) => Outcome(0, IndefiniteIntegral(env, eq).out)
    case RiemannCmd(t, a, b, count, eq) =>
      Outcome(0, RiemannOutcome(env, t, eq, a, b, ToULong(count)).out)
    case LimitCmd(x, eqs) => Outcome(0, OneSidedLimit(env, x, eqs).out)
    case HelpCmd(None) => Outcome(0, [GeneralHelp])
    case HelpCmd(Some(topic)) => Outcome(0, HelpFor(topic).out)
    case ExitCmd => Outcome(2, [])
  }

  /** A failed check prints its line and returns 1; otherwise the command runs. */
  function Finish(env: Env, parsed: Result<Command, Line>): Outcome {
    match parsed
    case Err(l) => Outcome(1, [l])
    case Ok(cmd) => Execute(env, cmd)
  }

  /** What RunCommand returns and prints for one line. */
  function Dispatch(env: Env, line: string): Outcome
    requires Defined(line)
  {
    Finish(env, Parse(env, line))
  }

  /** Only `exit` makes RunCommand return 2, and `exit` always does. */
  lemma ExitCode(env: Env, line: string)
    requires Defined(line)
    ensures Dispatch(env, line).rc == 2 <==> Keyword(line) == Some("exit")
  {
  }

  /** The `y` branch of RunCommand. */
  method RunY(env: Env, nextToken: string) returns (o: Outcome)
    ensures o == Finish(env, ParseY(env, nextToken))
  {
    var xStrCut := StrTok(nextToken, SEPARATORS);
    var xStr, rest := xStrCut.0, xStrCut.1;
    if xStr.None? {
      return Outcome(1, [InvalidUsage]);
    }
    var x := env.strtod(xStr.value);
    if x.None? || rest == [] {
      return Outcome(1, [InvalidUsage]);
    }
    var r := Y(env, x.value, rest);
    return Outcome(0, r.out);
  }

  /** The `riemann` branch of RunCommand. */
  method RunRiemann(env: Env, nextToken: string) returns (o: Outcome)
    requires StrTok(nextToken, SEPARATORS).0.Some?
    ensures o == Finish(env, ParseRiemann(env, nextToken))
  {
    var cut := StrTok(nextToken, SEPARATORS);
    var typeStr, rest := cut.0, cut.1;
    // The checks `*typeStr != '\0'` and `type != -1` never fail.
    var scheme := LookupScheme(typeStr.value);
    o := RunSampling(env, scheme, rest);
  }

  /** The `riemann` branch of RunCommand once the scheme is looked up. */
  method RunSampling(env: Env, scheme: Scheme, nextToken: string) returns (o: Outcome)
    ensures o == Finish(env, ParseSampling(env, scheme, nextToken))
  {
    var cut := StrTok(nextToken, SEPARATORS);
    var startStr, rest := cut.0, cut.1;
    if startStr.None? {
      return Outcome(1, [InvalidUsage]);
    }
    var start := env.strtod(startStr.value);
    if start.None? {
      return Outcome(1, [InvalidUsage]);
    }
    cut := StrTok(rest, SEPARATORS);
    var endStr := cut.0;
    rest := cut.1;
    if endStr.None? {
      return Outcome(1, [InvalidUsage]);
    }
    var end := env.strtod(endStr.value);
    if end.None? {
      return Outcome(1, [InvalidUsage]);
    }
    cut := StrTok(rest, SEPARATORS);
    var intervalStr := cut.0;
    rest := cut.1;
    if intervalStr.None? {
      return Outcome(1, [InvalidUsage]);
    }
    var numIntervals := env.strtoll(intervalStr.value);
    if numIntervals.None? || numIntervals.value < 0 {
      return Outcome(1, [InvalidUsage]);
    }
    var r := RiemannSum(env, scheme, rest, start.value, end.value, ToULong(numIntervals.value));
    return Outcome(0, r.out);
  }

  /** The `lim` branch of RunCommand. */
  method RunLimit(env: Env, nextToken: string) returns (o: Outcome)
    ensures o == Finish(env, ParseLimit(env, nextToken))
  {
    var cut := StrTok(nextToken, SEPARATORS);
    var xString, rest := cut.0, cut.1;
    if xString.None? {
      return Outcome(1, [InvalidUsage]);
    }
    var x := env.strtod(xString.value);
    if x.None? || rest == [] {
      return Outcome(1, [InvalidUsage]);
    }
    var r := OneSidedLimit(env, x.value, rest);
    return Outcome(0, r.out);
  }

  /** RunCommand: match the keyword and run its branch. */
  method RunCommand(env: Env, line: string) returns (o: Outcome)
    requires Defined(line)
    ensures o == Dispatch(env, line)
  {
    var cut := StrTok(line, SEPARATORS);
    var command, nextToken := cut.0, cut.1;
    if command.None? {
      return Outcome(1, [Invalid]);
    }
    var keyword := command.value;
    if keyword == "canary" {
      if nextToken != [] {
        return Outcome(1, [InvalidUsage]);
      }
      var r := Canary();
      return Outcome(0, r.out);
    } else if keyword == "y" {
      o := RunY(env, nextToken);
    } else if keyword == "dxdy" {
      if nextToken == [] {
        return Outcome(1, [InvalidUsage]);
      }
      var r := Differentiate(env, nextToken);
      return Outcome(0, r.out);
    } else if keyword == "S" {
      if nextToken == [] {
        return Outcome(1, [InvalidUsage]);
      }
      var r := IndefiniteIntegral(env, nextToken);
      return Outcome(0, r.out);
    } else if keyword == "riemann" {
      o := RunRiemann(env, nextToken);
    } else if keyword == "lim" {
      o := RunLimit(env, nextToken);
    } else if keyword == "help" {
      if nextToken != [] {
        var r := ShowHelp(nextToken);
        return Outcome(0, r.out);
      }
      return Outcome(0, [GeneralHelp]);
    } else if keyword == "exit" {
      return Outcome(2, []);
    } else {
      return Outcome(1, [Invalid]);
    }
  }
}
