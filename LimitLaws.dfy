/**
 * How OneSidedLimit reads `less,equal,greater`: the first two segments
 * are comma-free tokens, the third is the raw rest (commas included),
 * each segment is parsed before the next is looked for, and a report
 * agrees with the three evaluations.
 */
module LimitLaws {
  import opened Wrappers
  import opened Interface
  import opened Tokenizer
  import opened Commands

  /**
   * Three segments in a row: the first parse failure is reported, and
   * when all three parse the report is EvaluateLimit's, with the third
   * segment taken whole.
   */
  lemma ThreeSegments(env: Env, x: real, a: string, b: string, c: string)
    requires a != [] && NoDelims(a, EQUATION_SEP) && b != [] && NoDelims(b, EQUATION_SEP) && c != []
    ensures var o := OneSidedLimit(env, x, a + [','] + b + [','] + c);
      && (env.parse(a).None? ==> o == Outcome(1, [InvalidEquation]))
      && (env.parse(a).Some? && env.parse(b).None? ==> o == Outcome(1, [InvalidEquation]))
      && (env.parse(a).Some? && env.parse(b).Some? && env.parse(c).None? ==> o == Outcome(1, [InvalidEquation]))
      && (env.parse(a).Some? && env.parse(b).Some? && env.parse(c).Some? ==>
            o == EvaluateLimit(env, x, env.parse(a).value, env.parse(b).value, env.parse(c).value))
  {
    assert a + [','] + b + [','] + c == a + [','] + (b + [','] + c);
    StrTokWord(a, ',', b + [','] + c, EQUATION_SEP);
    StrTokWord(b, ',', c, EQUATION_SEP);
  }

  /** An unparseable first segment is reported whatever follows it. */
  lemma FirstSegmentFirst(env: Env, x: real, a: string, rest: string)
    requires a != [] && NoDelims(a, EQUATION_SEP) && env.parse(a).None?
    ensures OneSidedLimit(env, x, a) == Outcome(1, [InvalidEquation])
    ensures OneSidedLimit(env, x, a + [','] + rest) == Outcome(1, [InvalidEquation])
  {
    StrTokLastWord(a, EQUATION_SEP);
    StrTokWord(a, ',', rest, EQUATION_SEP);
  }

  /** One or two segments that parse are a usage error. */
  lemma MissingSegments(env: Env, x: real, a: string, b: string)
    requires a != [] && NoDelims(a, EQUATION_SEP) && env.parse(a).Some?
    requires b != [] && NoDelims(b, EQUATION_SEP) && env.parse(b).Some?
    ensures OneSidedLimit(env, x, a) == Outcome(1, [InvalidUsage])
    ensures OneSidedLimit(env, x, a + [',']) == Outcome(1, [InvalidUsage])
    ensures OneSidedLimit(env, x, a + [','] + b) == Outcome(1, [InvalidUsage])
    ensures OneSidedLimit(env, x, a + [','] + b + [',']) == Outcome(1, [InvalidUsage])
  {
    StrTokLastWord(a, EQUATION_SEP);
    StrTokWord(a, ',', [], EQUATION_SEP);
    assert a + [','] + [] == a + [','];
    StrTokWord(a, ',', b, EQUATION_SEP);
    StrTokLastWord(b, EQUATION_SEP);
    assert a + [','] + b + [','] == a + [','] + (b + [','] + []);
    StrTokWord(a, ',', b + [','] + [], EQUATION_SEP);
    StrTokWord(b, ',', [], EQUATION_SEP);
  }

  /** A text of commas only, the empty text included, has no first segment. */
  lemma NoSegments(env: Env, x: real, s: string)
    requires AllDelims(s, EQUATION_SEP)
    ensures OneSidedLimit(env, x, s) == Outcome(1, [InvalidUsage])
  {
    StrTokSplits(s, EQUATION_SEP);
  }

  /**
   * An unparseable second segment is reported before a third is looked
   * for: when the text ends after it, or a comma follows it.
   */
  lemma SecondSegmentFirst(env: Env, x: real, a: string, b: string, rest: string)
    requires a != [] && NoDelims(a, EQUATION_SEP) && env.parse(a).Some?
    requires b != [] && NoDelims(b, EQUATION_SEP) && env.parse(b).None?
    requires rest == [] || rest[0] == ','
    ensures OneSidedLimit(env, x, a + [','] + b + rest) == Outcome(1, [InvalidEquation])
  {
    if rest == [] {
      assert a + [','] + b + rest == a + [','] + b;
      StrTokWord(a, ',', b, EQUATION_SEP);
      StrTokLastWord(b, EQUATION_SEP);
    } else {
      assert rest == [','] + rest[1..];
      assert a + [','] + b + rest == a + [','] + (b + [','] + rest[1..]);
      StrTokWord(a, ',', b + [','] + rest[1..], EQUATION_SEP);
      StrTokWord(b, ',', rest[1..], EQUATION_SEP);
    }
  }

  /**
   * `lim 0 x,5,x`: both sides of f(x) = x at 0 are 0, so the limit is 0,
   * and the function defined at the point is 5 there.
   */
  lemma ContinuousScenario(env: Env, a: string, b: string, ex: Equation, e5: Equation)
    requires a != [] && NoDelims(a, EQUATION_SEP) && b != [] && NoDelims(b, EQUATION_SEP)
    requires env.parse(a) == Some(ex) && env.parse(b) == Some(e5)
    requires forall v :: env.findY(ex)(v) == Ok(v)
    requires forall v :: env.findY(e5)(v) == Ok(5.0)
    ensures OneSidedLimit(env, 0.0, a + [','] + b + [','] + a)
      == Outcome(0, [Below(0.0, 0.0), Above(0.0, 0.0), LimitIs(0.0, 0.0), ValueAt(0.0, 5.0)])
  {
    ThreeSegments(env, 0.0, a, b, a);
  }

  /**
   * A jump: sides that evaluate differently at the point give DNE, and
   * the value at the point is still printed.
   */
  lemma JumpScenario(env: Env, a: string, b: string, c: string, lo: Equation, mid: Equation, hi: Equation)
    requires a != [] && NoDelims(a, EQUATION_SEP) && b != [] && NoDelims(b, EQUATION_SEP) && c != []
    requires env.parse(a) == Some(lo) && env.parse(b) == Some(mid) && env.parse(c) == Some(hi)
    requires env.findY(lo)(1.0) == Ok(1.0) && env.findY(hi)(1.0) == Ok(2.0) && env.findY(mid)(1.0) == Ok(3.0)
    ensures OneSidedLimit(env, 1.0, a + [','] + b + [','] + c)
      == Outcome(0, [Below(1.0, 1.0), Above(1.0, 2.0), LimitDne(1.0), ValueAt(1.0, 3.0)])
  {
    ThreeSegments(env, 1.0, a, b, c);
  }

  /**
   * OneSidedLimit sees its text only through two strtok_s calls: texts
   * that cut the same way give the same report.
   */
  lemma SameCuts(env: Env, x: real, s1: string, s2: string)
    requires StrTok(s1, EQUATION_SEP).0 == StrTok(s2, EQUATION_SEP).0
    requires StrTok(StrTok(s1, EQUATION_SEP).1, EQUATION_SEP) == StrTok(StrTok(s2, EQUATION_SEP).1, EQUATION_SEP)
    ensures OneSidedLimit(env, x, s1) == OneSidedLimit(env, x, s2)
  {
  }

  /** Leading commas are skipped, so an empty first segment is not reported. */
  lemma LeadingCommaSkipped(env: Env, x: real, rest: string)
    ensures OneSidedLimit(env, x, [','] + rest) == OneSidedLimit(env, x, rest)
  {
    StrTokSkipsLeading(',', rest, EQUATION_SEP);
    SameCuts(env, x, [','] + rest, rest);
  }

  /**
   * A doubled comma after the first segment is one comma, so an empty
   * second segment is not reported: the next segment takes its place.
   */
  lemma DoubledCommaSkipped(env: Env, x: real, a: string, rest: string)
    requires a != [] && NoDelims(a, EQUATION_SEP)
    ensures OneSidedLimit(env, x, a + [','] + ([','] + rest)) == OneSidedLimit(env, x, a + [','] + rest)
  {
    StrTokSkipsLeading(',', rest, EQUATION_SEP);
    StrTokWord(a, ',', [','] + rest, EQUATION_SEP);
    StrTokWord(a, ',', rest, EQUATION_SEP);
    SameCuts(env, x, a + [','] + ([','] + rest), a + [','] + rest);
  }
}
