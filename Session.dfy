/**
 * The read-dispatch loop of `main`: a machine with the states Running
 * and Terminated. ReadLine is the input sequence; running off its end is
 * ReadLine returning NULL.
 */
module Session {
  import opened Wrappers
  import opened Interface
  import opened Dispatcher

  /** The two states of the session. */
  datatype State = Running | Terminated(status: int)

  /**
   * Every line the session reads has defined behaviour: lines are read up
   * to and including the first `exit`, and none after it.
   */
  predicate ReadableInput(input: seq<string>) {
    if input == [] then true
    else Defined(input[0]) && (Keyword(input[0]) == Some("exit") || ReadableInput(input[1..]))
  }

  /** Process exit status and printed lines from the Running state on. */
  function RunFrom(env: Env, input: seq<string>): (r: (int, seq<Line>))
    requires ReadableInput(input)
  {
    if input == [] then (1, [Prompt, ReadFailure])
    else
      var o := Dispatch(env, input[0]);
      if o.rc == 2 then (0, [Prompt] + o.out)
      else
        var rest := RunFrom(env, input[1..]);
        (rest.0, [Prompt] + o.out + rest.1)
  }

  /** The whole run of `main`: banner and mascot, then the loop. */
  function SessionRun(env: Env, input: seq<string>): (int, seq<Line>)
    requires ReadableInput(input)
  {
    var r := RunFrom(env, input);
    (r.0, [Banner, Mascot] + r.1)
  }

  /**
   * The loop invariant of `main` in the Running state: the lines printed
   * so far, followed by what the unread input produces, make up `whole`.
   */
  predicate Resumes(env: Env, unread: seq<string>, out: seq<Line>, whole: (int, seq<Line>)) {
    && ReadableInput(unread)
    && whole == (RunFrom(env, unread).0, out + RunFrom(env, unread).1)
  }

  /** Reading past the last line ends the run with status 1. */
  lemma EndOfInput(env: Env, out: seq<Line>, whole: (int, seq<Line>))
    requires Resumes(env, [], out, whole)
    ensures whole == (1, out + [Prompt] + [ReadFailure])
  {
    assert out + [Prompt, ReadFailure] == out + [Prompt] + [ReadFailure];
  }

  /** One turn of the loop: the first unread line is read and dispatched. */
  lemma Turn(env: Env, unread: seq<string>, out: seq<Line>, whole: (int, seq<Line>), o: Outcome)
    requires unread != [] && Resumes(env, unread, out, whole)
    requires o == Dispatch(env, unread[0])
    ensures o.rc == 2 ==> whole == (0, out + [Prompt] + o.out)
    ensures o.rc != 2 ==> Resumes(env, unread[1..], out + [Prompt] + o.out, whole)
  {
    ExitCode(env, unread[0]);
    if o.rc == 2 {
      assert out + ([Prompt] + o.out) == out + [Prompt] + o.out;
    } else {
      var tail := RunFrom(env, unread[1..]).1;
      assert out + ([Prompt] + o.out + tail) == out + [Prompt] + o.out + tail;
    }
  }

  /**
   * `main`: prompt, read, dispatch, until RunCommand returns 2 (status 0)
   * or ReadLine returns NULL (status 1).
   */
  method Run(env: Env, input: seq<string>) returns (status: int, out: seq<Line>)
    requires ReadableInput(input)
    ensures (status, out) == SessionRun(env, input)
  {
    out := [Banner, Mascot];
    var state := Running;
    var i := 0;
    while state == Running
      invariant i <= |input|
      invariant state == Running ==> Resumes(env, input[i..], out, SessionRun(env, input))
      invariant state.Terminated? ==> (state.status, out) == SessionRun(env, input)
      decreases |input| - i, if state == Running then 1 else 0
    {
      if i == |input| {
        assert input[i..] == [];
        EndOfInput(env, out, SessionRun(env, input));
        out := out + [Prompt] + [ReadFailure];
        state := Terminated(1);
      } else {
        var o := RunCommand(env, input[i]);
        assert input[i..][0] == input[i] && input[i..][1..] == input[i + 1..];
        Turn(env, input[i..], out, SessionRun(env, input), o);
        out := out + [Prompt] + o.out;
        i := i + 1;
        if o.rc == 2 {
          state := Terminated(0);
        }
      }
    }
    status := state.status;
  }
}
