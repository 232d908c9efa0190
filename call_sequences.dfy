/**
  Sequences of tool calls issued one at a time against one server: each call
  is one atomic step (the locked section), so a run is the composition of
  the steps. This is what stands for "no lost updates" in the model.
 */
module CallSequences {
  import opened Wrappers
  import opened Decimal
  import opened CounterServer

  /** The counter value after running `calls` in order from `c`. */
  function Run(c: int, calls: seq<ToolName>): int
    decreases |calls|
  {
    if calls == [] then c else Run(Step(c, calls[0]), calls[1..])
  }

  /** Every call of the run keeps the counter within `i32` (none of them panics). */
  predicate Admissible(c: int, calls: seq<ToolName>)
    decreases |calls|
  {
    calls == [] || (CanRun(c, calls[0]) && Admissible(Step(c, calls[0]), calls[1..]))
  }

  /** Number of increments minus number of decrements. */
  function Net(calls: seq<ToolName>): int {
    multiset(calls)[Increment] as int - multiset(calls)[Decrement] as int
  }

  /** After any run the counter has moved by #increment - #decrement. */
  lemma {:induction false} RunIsNet(c: int, calls: seq<ToolName>)
    ensures Run(c, calls) == c + Net(calls)
    decreases |calls|
  {
    if calls != [] {
      RunIsNet(Step(c, calls[0]), calls[1..]);
      assert calls == [calls[0]] + calls[1..];
      assert multiset(calls) == multiset{calls[0]} + multiset(calls[1..]);
    }
  }

  /** On a fresh server the counter equals #increment - #decrement. */
  lemma FreshRunIsNet(calls: seq<ToolName>)
    ensures Run(0, calls) == Net(calls)
  {
    RunIsNet(0, calls);
  }

  /** A `get_counter` call anywhere in a run does not change its outcome. */
  lemma GetCounterDoesNotAffectRun(c: int, before: seq<ToolName>, after: seq<ToolName>)
    ensures Run(c, before + [GetCounter] + after) == Run(c, before + after)
  {
    RunIsNet(c, before + [GetCounter] + after);
    RunIsNet(c, before + after);
    assert multiset(before + [GetCounter] + after) == multiset(before + after) + multiset{GetCounter};
  }

  /** `k` increments raise the counter by exactly `k`. */
  lemma {:induction false} NoLostIncrements(c: int, k: nat)
    ensures Run(c, seq(k, _ => Increment)) == c + k
  {
    RunIsNet(c, seq(k, _ => Increment));
    IncrementsCount(k);
  }

  lemma {:induction false} IncrementsCount(k: nat)
    ensures multiset(seq(k, _ => Increment))[Increment] == k
    ensures multiset(seq(k, _ => Increment))[Decrement] == 0
  {
    if k > 0 {
      IncrementsCount(k - 1);
      assert seq(k, _ => Increment) == seq(k - 1, _ => Increment) + [Increment];
    }
  }

  /** An admissible run from an `i32` value stays in `i32` at every step. */
  lemma {:induction false} AdmissibleStaysInI32(c: int, calls: seq<ToolName>, n: nat)
    requires InI32(c) && Admissible(c, calls) && n <= |calls|
    ensures InI32(Run(c, calls[..n]))
    decreases |calls|
  {
    if n > 0 {
      StepStaysInI32(c, calls[0]);
      AdmissibleStaysInI32(Step(c, calls[0]), calls[1..], n - 1);
      assert calls[..n][1..] == calls[1..][..n - 1];
    }
  }

  /** A run may be split anywhere: running a prefix and then the rest is the whole run. */
  lemma {:induction false} RunAppend(c: int, first: seq<ToolName>, rest: seq<ToolName>)
    ensures Run(c, first + rest) == Run(Run(c, first), rest)
    decreases |first|
  {
    if first != [] {
      RunAppend(Step(c, first[0]), first[1..], rest);
      assert (first + rest)[1..] == first[1..] + rest;
    } else {
      assert first + rest == rest;
    }
  }

  /**
    Issue `calls`, a sequence over the three tools, one at a time through
    `CallTool`, without arguments: the server's counter ends where the fold
    `Run` says.
   */
  method RunCalls(server: HelloWorld, calls: seq<ToolName>)
    requires server.Valid() && Admissible(server.counter, calls)
    modifies server
    ensures server.Valid() && server.counter == Run(old(server.counter), calls)
  {
    var i := 0;
    while i < |calls|
      invariant 0 <= i <= |calls|
      invariant server.Valid()
      invariant server.counter == Run(old(server.counter), calls[..i])
      invariant Admissible(server.counter, calls[i..])
    {
      LookupToolName(calls[i]);
      var r := server.CallTool(CallToolRequestParam(calls[i].Name(), None));
      RunAppend(old(server.counter), calls[..i], [calls[i]]);
      assert calls[..i + 1] == calls[..i] + [calls[i]];
      assert calls[i..][1..] == calls[i + 1..];
      i := i + 1;
    }
    assert calls[..i] == calls;
  }

  /** On a fresh server, any admissible sequence of calls to the three tools leaves the counter at #increment - #decrement. */
  method FreshServerRun(calls: seq<ToolName>) returns (counter: int)
    requires Admissible(0, calls)
    ensures counter == Net(calls)
  {
    var server := new HelloWorld();
    RunCalls(server, calls);
    counter := server.counter;
    FreshRunIsNet(calls);
  }
}
