/** ShowHelp and the table of (topic, text) pairs it scans. */
module Help {
  import opened Interface

  /** One pair of the functionHelp table. */
  datatype HelpEntry = HelpEntry(topic: string, page: HelpPage)

  /** functionHelp, in the order the source lists it. */
  const FUNCTION_HELP: seq<HelpEntry> := [
    HelpEntry("dxdy", DxdyPage),
    HelpEntry("S", IntegralPage),
    HelpEntry("riemann", RiemannPage),
    HelpEntry("lim", LimitPage),
    HelpEntry("y", YPage)
  ]

  /** The scan of the table from entry `i` on. */
  function HelpFrom(topic: string, i: nat): Outcome
    requires i <= |FUNCTION_HELP|
    decreases |FUNCTION_HELP| - i
  {
    if i == |FUNCTION_HELP| then Outcome(1, [Invalid])
    else if FUNCTION_HELP[i].topic == topic then Outcome(0, [Help(FUNCTION_HELP[i].page)])
    else HelpFrom(topic, i + 1)
  }

  /** What ShowHelp prints and returns for a topic. */
  function HelpFor(topic: string): Outcome {
    HelpFrom(topic, 0)
  }

  /**
   * ShowHelp: prints the text paired with the first entry whose topic
   * matches and returns 0, or prints INVALID and returns 1.
   */
  method ShowHelp(topic: string) returns (o: Outcome)
    ensures o == HelpFor(topic)
    ensures o.rc == 0 <==> exists i :: 0 <= i < |FUNCTION_HELP| && FUNCTION_HELP[i].topic == topic
    ensures o.rc == 0 ==>
      exists i :: 0 <= i < |FUNCTION_HELP| && FUNCTION_HELP[i].topic == topic
        && (forall j :: 0 <= j < i ==> FUNCTION_HELP[j].topic != topic)
        && o.out == [Help(FUNCTION_HELP[i].page)]
    ensures o.rc != 0 ==> o == Outcome(1, [Invalid])
  {
    var i := 0;
    while i < |FUNCTION_HELP|
      invariant i <= |FUNCTION_HELP|
      invariant forall j :: 0 <= j < i ==> FUNCTION_HELP[j].topic != topic
      invariant HelpFor(topic) == HelpFrom(topic, i)
    {
      if topic == FUNCTION_HELP[i].topic {
        return Outcome(0, [Help(FUNCTION_HELP[i].page)]);
      }
      i := i + 1;
    }
    return Outcome(1, [Invalid]);
  }
}
