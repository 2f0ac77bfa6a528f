/**
 * What `main` promises: status 0 exactly when an `exit` line is read,
 * status 1 when the input runs out first, nothing read after the first
 * `exit`, and a prompt before every read.
 */
module SessionLaws {
  import opened Wrappers
  import opened Interface
  import opened Dispatcher
  import opened Session

  /** The input holds an `exit` line. */
  predicate HasExit(input: seq<string>) {
    exists i :: 0 <= i < |input| && Keyword(input[i]) == Some("exit")
  }

  /** The status is 0 when an `exit` line is read and 1 otherwise. */
  lemma {:induction false} ExitStatus(env: Env, input: seq<string>)
    requires ReadableInput(input)
    ensures RunFrom(env, input).0 == (if HasExit(input) then 0 else 1)
  {
    if input != [] {
      ExitCode(env, input[0]);
      if Keyword(input[0]) != Some("exit") {
        ExitStatus(env, input[1..]);
        if HasExit(input[1..]) {
          var i :| 0 <= i < |input[1..]| && Keyword(input[1..][i]) == Some("exit");
          assert Keyword(input[i + 1]) == Some("exit");
        }
        if HasExit(input) {
          var i :| 0 <= i < |input| && Keyword(input[i]) == Some("exit");
          assert i != 0 && input[1..][i - 1] == input[i];
        }
      } else {
        assert Keyword(input[0]) == Some("exit");
      }
    }
  }

  /** The whole run's status, as `main` returns it. */
  lemma SessionStatus(env: Env, input: seq<string>)
    requires ReadableInput(input)
    ensures SessionRun(env, input).0 == (if HasExit(input) then 0 else 1)
  {
    ExitStatus(env, input);
  }

  /**
   * Once an `exit` line has been read nothing more is: the lines after
   * it neither need to be defined nor change the run.
   */
  lemma {:induction false} NothingReadAfterExit(env: Env, input: seq<string>, extra: seq<string>)
    requires ReadableInput(input) && HasExit(input)
    ensures ReadableInput(input + extra)
    ensures RunFrom(env, input + extra) == RunFrom(env, input)
  {
    var whole := input + extra;
    assert whole[0] == input[0];
    ExitCode(env, input[0]);
    if Keyword(input[0]) != Some("exit") {
      var i :| 0 <= i < |input| && Keyword(input[i]) == Some("exit");
      assert i != 0 && input[1..][i - 1] == input[i];
      assert whole[1..] == input[1..] + extra;
      NothingReadAfterExit(env, input[1..], extra);
    }
  }

  /** One turn of `main`, with `exit` printing nothing. */
  lemma Unfold(env: Env, input: seq<string>)
    requires input != [] && ReadableInput(input)
    ensures var o := Dispatch(env, input[0]);
      && (o.rc == 2 ==> RunFrom(env, input).0 == 0 && RunFrom(env, input).1 == [Prompt])
      && (o.rc != 2 ==>
            && ReadableInput(input[1..])
            && RunFrom(env, input).0 == RunFrom(env, input[1..]).0
            && RunFrom(env, input).1 == [Prompt] + o.out + RunFrom(env, input[1..]).1)
  {
    ExitCode(env, input[0]);
    assert [Prompt] + [] == [Prompt];
  }

  /**
   * The run ends with the prompt that read `exit` (status 0), or with the
   * prompt whose read failed and the failure message (status 1); it
   * starts with a prompt.
   */
  predicate WellEnded(r: (int, seq<Line>)) {
    && |r.1| >= 1 && r.1[0] == Prompt
    && (r.0 == 1 ==> |r.1| >= 2 && r.1[|r.1| - 2..] == [Prompt, ReadFailure])
    && (r.0 == 0 ==> r.1[|r.1| - 1] == Prompt)
  }

  /** Every run of the loop is well ended. */
  lemma {:induction false} LastLines(env: Env, input: seq<string>)
    requires ReadableInput(input)
    ensures WellEnded(RunFrom(env, input))
  {
    if input != [] {
      Unfold(env, input);
      var o := Dispatch(env, input[0]);
      if o.rc != 2 {
        LastLines(env, input[1..]);
        EarlierTurn(o.out, RunFrom(env, input[1..]), RunFrom(env, input));
      }
    }
  }

  /** A turn that does not end the run keeps the run well ended. */
  lemma EarlierTurn(printed: seq<Line>, later: (int, seq<Line>), r: (int, seq<Line>))
    requires WellEnded(later) && r.0 == later.0 && r.1 == [Prompt] + printed + later.1
    ensures WellEnded(r)
  {
    assert r.1[|r.1| - 1] == later.1[|later.1| - 1];
    if |later.1| >= 2 {
      assert r.1[|r.1| - 2..] == later.1[|later.1| - 2..];
    }
  }
}
