# CalcCanary command interpreter in Dafny

CalcCanary is a small console calculator. `main` prints a banner and an
ASCII canary, then loops: it prints the prompt `:> `, reads a line, and hands
it to `RunCommand`. `RunCommand` cuts the line with `strtok_s` on space and
newline, matches the first word against the eight keywords (`canary`, `y`,
`dxdy`, `S`, `riemann`, `lim`, `help`, `exit`), checks the positional
arguments and calls the routine for that command. It returns 2 for `exit`,
which ends the session with status 0. When `ReadLine` returns NULL the
session ends with status 1. Two routines hold numerical logic of their own:
`RiemannSum`, which implements four sampling schemes (right, left, midpoint,
trapezoidal) over an interval whose endpoints may be swapped, and
`OneSidedLimit`, which compares the left and right pieces of a piecewise
equation at a point.

The model follows only `CalcCanary/CalcCanary.c`, module by module:

- `Wrappers`: `Option` and `Result`.
- `Interface`: the equation library (LibMath) the program calls, as fields
  of a value `Env`:
  - `parse` stands for `StringToEquation`;
  - `findY` for `FindY`, whose failure carries the `LibMathErr()` text;
  - `differentiate` and `integrate` for the derivative and integral routines;
  - `strtod` and `strtoll` hold a number only when the whole token was read.

  `Interface` also holds the printed lines, as an abstract `Line` datatype,
  and the `Outcome` of a routine: its return code and the lines it printed.
- `Tokenizer`: `strtok_s` as a pure function, together with its splitting
  laws.
- `Riemann`: `RiemannSum` as an imperative method.
  - Its loop is `SumSamples`, proved against the recursive specification
    `Accumulate`.
  - The scheme lookup loop of `RunCommand` is `LookupScheme`, proved
    against `SchemeOf`.
  - Arithmetic is on exact reals.
- `RiemannLaws`: laws of the Riemann specification.
  - Swapping the endpoints negates the result.
  - A zero-width interval gives 0.
  - A constant equation gives its exact integral.
  - The exact list of points at which each scheme evaluates the equation,
    and the fact that a failed evaluation aborts the sum.
  - Two worked sums.
- `Commands`: `Canary`, `Y`, `Differentiate`, `IndefiniteIntegral` and
  `OneSidedLimit`, as functions.
- `LimitLaws`: how `OneSidedLimit` splits `less,equal,greater` and which
  error comes first, with two worked limits.
- `Help`: `ShowHelp` as a method scanning the `functionHelp` table.
- `Dispatcher`:
  - `Parse` states the argument checks and `Execute` the call they lead to.
  - `RunCommand` and its branch methods `RunY`, `RunRiemann`, `RunSampling`
    and `RunLimit` follow the C statement by statement.
  - They are proved equal to `Dispatch = Finish(Parse)`.
- `DispatcherLaws`: the return codes of `RunCommand` and its quirks, with
  concrete command lines.
- `Session`: `main` as an imperative loop over the input lines. It is a
  two-state machine (`Running`, `Terminated`), proved against the recursive
  specification `RunFrom`.
- `SessionLaws`: laws of a whole session.
  - The exit status is 0 exactly when an `exit` line is read.
  - No line after the first `exit` is read.
  - How the output ends.

The model follows the code, including these quirks:

- `RunCommand` discards the return code of the routine it calls: a
  failure inside that routine is printed, and `RunCommand` still returns 0.
  Only its own argument checks return 1 (`ReturnCodes`,
  `EquationCommands`).
- `RunCommand` does not reject an unknown scheme name. The check
  `type != -1` at `CalcCanary/CalcCanary.c:420` cannot fail, because the
  lookup starts from `Other`. An unknown name passes every check, and
  `RiemannSum` rejects it with "type was invalid." while `RunCommand` returns
  0 (`SchemeNeverRejected`, `UnknownSchemeReachesSum`).
- `RiemannSum` accepts 0 intervals. The width is then a division by zero,
  and the printed sum is NaN (`SumNaN` in `RiemannOutcome`).
- The interval count is cast to a 32-bit `unsigned long`. A count of 2^32
  passes the `numIntervals >= 0` check and becomes 0 intervals
  (`WrappedCount`).
- The equation text is the raw rest of the line, spaces included. The third
  segment of a limit is the raw rest after the second comma, commas included.
- `strtok_s` skips runs of delimiters, so an empty first or second limit
  segment, as in `x,,5,x`, is not reported. The next segment takes its
  place (`LeadingCommaSkipped`, `DoubledCommaSkipped`).

## Model

| member | source | states |
|---|---|---|
| Tokenizer.StrTok | CalcCanary/CalcCanary.c:377-379 | without a token the cursor is empty, and the cursor is never longer than the input |
| Tokenizer.StrTokSplits | CalcCanary/CalcCanary.c:377-379 | there is no token iff the line is all separators; otherwise the token is non-empty and separator-free, follows only separators, and the cursor starts right after the one separator ending it |
| Tokenizer.StrTokWord | CalcCanary/CalcCanary.c:389 | a separator-free word followed by a separator is returned whole, and the cursor is exactly what follows |
| Tokenizer.StrTokLastWord | CalcCanary/CalcCanary.c:389 | a separator-free word at the end of the string is returned whole, and the cursor is empty |
| Tokenizer.StrTokSkipsLeading | CalcCanary/CalcCanary.c:304-310 | a leading delimiter changes neither the token nor the cursor |
| Riemann.SchemeNamesRoundTrip | CalcCanary/CalcCanary.c:117-122 | the enum value and the name table agree both ways; a name maps to `Other` iff it is not in the table |
| Riemann.LookupScheme | CalcCanary/CalcCanary.c:412-419 | the loop yields the scheme the name denotes, `Other` when none matches |
| Riemann.SumSamples | CalcCanary/CalcCanary.c:251-269 | the loop yields exactly the recursive accumulation of contributions, or the first evaluation failure |
| Riemann.AccumulateFailurePersists | CalcCanary/CalcCanary.c:251-269 | a failed evaluation in iteration i is the result of the whole sum, so no later sample counts |
| Riemann.RiemannSum | CalcCanary/CalcCanary.c:208-286 | the outcome is `RiemannOutcome`: invalid scheme, then invalid equation (rc 1); NaN for 0 intervals; an evaluation failure (rc 1); otherwise the sum over the ascending walk times the width, negated when the endpoints were swapped (rc 0) |
| Riemann.ApproximationOfSum | CalcCanary/CalcCanary.c:251-281 | a successful accumulation prints exactly one line, the scaled sum, and returns 0 |
| Riemann.ApproximationOfFailure | CalcCanary/CalcCanary.c:251-269 | a failed accumulation prints exactly the FindY error and returns 1 |
| RiemannLaws.SwapNegates | CalcCanary/CalcCanary.c:219-276 | for every scheme and n > 0, exchanging start and end negates the result, failures included |
| RiemannLaws.ZeroWidth | CalcCanary/CalcCanary.c:229-271 | with start == end the sum is 0 when f evaluates at the point, and otherwise the same failure |
| RiemannLaws.ConstantIsExact | CalcCanary/CalcCanary.c:229-271 | for a constant equation c every scheme yields c * (end - start) for every n > 0 |
| RiemannLaws.AccumulateConstant | CalcCanary/CalcCanary.c:251-269 | k iterations over a constant c accumulate k * c |
| RiemannLaws.ScheduleAt | CalcCanary/CalcCanary.c:251-269 | the j-th evaluation point is x0 + j*h; for the trapezoidal scheme the points are x0 + j*h and x0 + (j+1)*h |
| RiemannLaws.AccumulateOkIff | CalcCanary/CalcCanary.c:251-269 | the accumulation succeeds iff the equation evaluates at every scheduled point |
| RiemannLaws.AccumulateOnlyUsesSchedule | CalcCanary/CalcCanary.c:251-269 | two equations that agree on the scheduled points give the same accumulation |
| RiemannLaws.SampleSchedule | CalcCanary/CalcCanary.c:229-269 | left samples lo + j*h, right lo + (j+1)*h, midpoint lo + j*h + h/2, trapezoidal both edges of interval j |
| RiemannLaws.EvaluationFailureAborts | CalcCanary/CalcCanary.c:229-269 | the sum succeeds iff every evaluation point evaluates, and depends only on the values there |
| RiemannLaws.LeftExample | CalcCanary/CalcCanary.c:229-271 | the left sum of f(x) = x over [0, 1] with 2 intervals is 0.25 |
| RiemannLaws.TrapezoidalExample | CalcCanary/CalcCanary.c:229-271 | the trapezoidal sum of f(x) = x over [0, 2] with 2 intervals is 2, the exact integral |
| Commands.Canary | CalcCanary/CalcCanary.c:134-139 | prints the mascot and returns 0 |
| Commands.Y | CalcCanary/CalcCanary.c:141-162 | returns 0 iff the equation parses and evaluates, printing f(x); otherwise returns 1 with one error line: INVALID_EQUATION for an unparseable equation, and "Error in FindY" with the engine's own message when it does not evaluate |
| Commands.Differentiate | CalcCanary/CalcCanary.c:164-184 | returns 0 iff the equation parses, printing its derivative; otherwise prints INVALID_EQUATION and returns 1 |
| Commands.IndefiniteIntegral | CalcCanary/CalcCanary.c:186-206 | returns 0 iff the equation parses, printing its antiderivative; otherwise prints INVALID_EQUATION and returns 1 |
| Commands.Classify | CalcCanary/CalcCanary.c:327-335 | DNE iff the two sides differ, otherwise the common value |
| Commands.EvaluateLimit | CalcCanary/CalcCanary.c:322-338 | returns 0 iff all three pieces evaluate at x, and then prints below, above, the classification and the value at x, in that order; the first failing evaluation ends the report with its FindY message, after the lines already printed (nothing, the below line, or below, above and the classification) |
| Commands.OneSidedLimit | CalcCanary/CalcCanary.c:288-350 | returns 0 or 1; prints 1 to 4 lines (4 on success); returns 1 iff the last line is an error; only the last line can be an error; every other line keeps its place in the report |
| LimitLaws.ThreeSegments | CalcCanary/CalcCanary.c:304-317 | with three segments the first unparseable one is reported, and otherwise the report is that of the three parsed pieces, the third being the raw rest |
| LimitLaws.FirstSegmentFirst | CalcCanary/CalcCanary.c:304-307 | an unparseable first segment is reported as INVALID_EQUATION whatever follows it |
| LimitLaws.MissingSegments | CalcCanary/CalcCanary.c:308-315 | one or two parseable segments, or two followed by a trailing comma (an empty third segment), are reported as INVALID_USAGE |
| LimitLaws.NoSegments | CalcCanary/CalcCanary.c:304-305 | a text of commas only has no first segment and is reported as INVALID_USAGE |
| LimitLaws.SecondSegmentFirst | CalcCanary/CalcCanary.c:309-315 | an unparseable second segment is reported as INVALID_EQUATION when the text ends after it or a comma follows, before a third segment is looked for |
| LimitLaws.ContinuousScenario | CalcCanary/CalcCanary.c:304-338 | `x,5,x` at 0 prints both sides 0, the limit 0 and the value 5 |
| LimitLaws.JumpScenario | CalcCanary/CalcCanary.c:322-338 | sides evaluating to 1 and 2 give DNE, and the value at the point is still printed |
| LimitLaws.SameCuts | CalcCanary/CalcCanary.c:304-315 | two texts whose two strtok_s cuts agree give the same report |
| LimitLaws.LeadingCommaSkipped | CalcCanary/CalcCanary.c:304-307 | a leading comma changes nothing: an empty first segment is never reported |
| LimitLaws.DoubledCommaSkipped | CalcCanary/CalcCanary.c:309-315 | a doubled comma after the first segment acts as one: an empty second segment is never reported |
| Help.ShowHelp | CalcCanary/CalcCanary.c:353-367 | returns 0 iff some table topic equals the argument, printing the page of the first such topic; otherwise prints INVALID and returns 1 |
| Dispatcher.ToULong | CalcCanary/CalcCanary.c:446 | the cast lands below 2^32, keeps every count below 2^32, and differs from the count by a multiple of 2^32 (wrap-around) |
| Dispatcher.ExitCode | CalcCanary/CalcCanary.c:474-477 | the return code is 2 iff the keyword is `exit` |
| Dispatcher.RunY | CalcCanary/CalcCanary.c:386-397 | the `y` checks and call agree with `ParseY` then `Finish` |
| Dispatcher.RunRiemann | CalcCanary/CalcCanary.c:408-420 | the scheme lookup and the rest of the branch agree with `ParseRiemann` then `Finish` |
| Dispatcher.RunSampling | CalcCanary/CalcCanary.c:422-446 | the start, end and count checks and the call agree with `ParseSampling` then `Finish` |
| Dispatcher.RunLimit | CalcCanary/CalcCanary.c:448-462 | the `lim` checks and call agree with `ParseLimit` then `Finish` |
| Dispatcher.RunCommand | CalcCanary/CalcCanary.c:373-487 | the outcome is `Dispatch`: the checks of `Parse`, then `Execute` |
| DispatcherLaws.ReturnCodes | CalcCanary/CalcCanary.c:373-487 | the code is 0, 1 or 2; 2 iff `exit`, printing nothing; 1 iff a check of RunCommand fails, printing only INVALID or INVALID_USAGE |
| DispatcherLaws.ParseErrors | CalcCanary/CalcCanary.c:380-460 | every failed argument check prints INVALID or INVALID_USAGE |
| DispatcherLaws.UnknownCommand | CalcCanary/CalcCanary.c:478-481 | an empty line or an unknown first word prints INVALID and returns 1 |
| DispatcherLaws.ExitIgnoresArguments | CalcCanary/CalcCanary.c:474-477 | `exit` returns 2 and prints nothing, whatever follows it |
| DispatcherLaws.CanaryUsage | CalcCanary/CalcCanary.c:381-385 | bare `canary` prints the mascot; with arguments it prints INVALID_USAGE and returns 1 |
| DispatcherLaws.EquationCommands | CalcCanary/CalcCanary.c:398-407 | `dxdy` and `S` need a rest of the line, pass it raw, and return 0 even when the equation does not parse |
| DispatcherLaws.YDispatch | CalcCanary/CalcCanary.c:386-397 | `y` returns 0 with Y's output on the raw rest iff the x token exists, strtod reads it whole and a rest follows; otherwise INVALID_USAGE with 1 |
| DispatcherLaws.LimitDispatch | CalcCanary/CalcCanary.c:448-461 | `lim` returns 0 with OneSidedLimit's output on the raw rest iff the x token exists, strtod reads it whole and a rest follows; otherwise INVALID_USAGE with 1 |
| DispatcherLaws.HelpDispatch | CalcCanary/CalcCanary.c:463-473 | `help` returns 0, printing the general text or ShowHelp's page for the raw rest; an unknown topic prints INVALID yet returns 0 |
| DispatcherLaws.SchemeNeverRejected | CalcCanary/CalcCanary.c:410-420 | a `riemann` check that fails is always a usage error, never about the scheme; a parsed command carries the scheme the name looks up |
| DispatcherLaws.SamplingChecks | CalcCanary/CalcCanary.c:424-441 | the `riemann` numbers pass iff start and end are tokens strtod reads whole and the count is a token strtoll reads whole and not negative; the command then carries those values and the raw rest, and otherwise the result is INVALID_USAGE |
| DispatcherLaws.RiemannDispatch | CalcCanary/CalcCanary.c:408-446 | a `riemann` line parses to the scheme of its first token, the three numbers and the raw rest exactly when those checks pass; otherwise it prints INVALID_USAGE and returns 1 |
| DispatcherLaws.UnknownSchemeReachesSum | CalcCanary/CalcCanary.c:412-446 | a passed `riemann` command with an unknown scheme prints TYPE_INVALID and returns 0 |
| DispatcherLaws.WrappedCount | CalcCanary/CalcCanary.c:436-446 | a count of 2^32 is passed on as 0 intervals and prints NaN |
| DispatcherLaws.MisspeltKeyword | CalcCanary/CalcCanary.c:478-481 | `ridmann ...` prints INVALID and returns 1, whatever follows |
| DispatcherLaws.EvaluateScenario | CalcCanary/CalcCanary.c:386-397 | `y 2 <equation>` evaluates the whole rest, spaces included, at 2 |
| DispatcherLaws.RiemannLine | CalcCanary/CalcCanary.c:408-446 | `riemann <scheme> 0 1 2 x` runs RiemannSum over [0, 1] with 2 intervals and returns 0 |
| DispatcherLaws.UnknownSchemeScenario | CalcCanary/CalcCanary.c:408-446 | `riemann simpson 0 1 2 x`, or any other unknown name, prints TYPE_INVALID and returns 0 |
| DispatcherLaws.LeftSumScenario | CalcCanary/CalcCanary.c:408-446 | `riemann left 0 1 2 x` for f(x) = x prints 0.25 |
| Session.Run | CalcCanary/CalcCanary.c:493-524 | the loop's status and printed lines are those of `SessionRun`: banner and mascot, then a prompt and a dispatched line per read, up to `exit` (0) or a failed read (1) |
| Session.Turn | CalcCanary/CalcCanary.c:503-511 | one read-dispatch step either ends the run (code 2) or keeps the loop invariant for the next line |
| Session.EndOfInput | CalcCanary/CalcCanary.c:504-505 | a failed read prints its message and ends with status 1 |
| SessionLaws.ExitStatus | CalcCanary/CalcCanary.c:501-523 | the loop's status is 0 iff some line read has the keyword `exit`, and 1 otherwise |
| SessionLaws.SessionStatus | CalcCanary/CalcCanary.c:493-524 | the exit status of `main` is 0 iff an `exit` line is read, and 1 otherwise |
| SessionLaws.NothingReadAfterExit | CalcCanary/CalcCanary.c:506-511 | lines after the first `exit` are never read and do not change the run |
| SessionLaws.LastLines | CalcCanary/CalcCanary.c:501-511 | the loop's output starts with a prompt; it ends with the prompt that read `exit`, or with a prompt and the read failure |

## Left out

- LibMath is not part of this model. `StringToEquation`, `FindY`,
  `LibMathErr`, `DifferentiateEquation`, `IntegrateEquation` and
  `PrintEquation` are the fields of `Env`, with no properties assumed.
- `ReadLine` is not part of this model. The session input is a sequence of
  lines, and reading past its end is the NULL return.
- `strtod` and `strtoll` are `Env` fields that succeed only when the whole
  token is read. Their number syntax, `nan`/`inf` and the clamping of
  `strtoll` are not modelled.
- Arithmetic is exact: IEEE-754 rounding, infinities and `%lf` formatting
  are not modelled. The only IEEE value kept is the NaN printed for 0
  intervals, as a distinct output line.
- Fixed texts are not modelled. The banner, the mascot, the help pages,
  the general help text and the error messages are named `Line` values.
- `free` and `_CrtDumpMemoryLeaks` are left out: they have no observable
  effect in the model.
- The NULL checks at lines 375, 145, 212 and 444 are left out. They cannot
  fail, because their arguments are never NULL.
- The check `*typeStr != '\0'` at line 411 cannot fail for a token. When
  `riemann` has no further token it dereferences NULL, which is undefined
  behaviour. `Defined` excludes that line, `RunCommand` requires it, and
  the session requires it only of the lines it reads.
- `Commands.Differentiate` and `Commands.IndefiniteIntegral`: a NULL result
  of the LibMath routine is not modelled. Neither is `PrintEquation` being
  handed the length of the input equation.
- `Tokenizer.StrTok`: the tokenizer works on an immutable string. The `'\0'`
  it writes into the line in C is not modelled; it is observable only
  through the cursor, which the model returns.
- Input lines are Dafny strings, which may hold `'\0'`. A C line from
  `ReadLine` cannot, since C would end the string there. The model gives
  such lines no special treatment.
