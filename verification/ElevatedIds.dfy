/** Command ids: when they really increase, which the protocol's order rests on. */
module ElevatedIds {
  import opened Basics
  import opened ElevatedProtocol
  import opened ElevatedBase

  /** `next_command_id`: the wall clock in milliseconds and a process-wide counter. */
  function NextCommandId(unixMs: u64, sequence: u64): u64 {
    SaturatingAdd(SaturatingMul(unixMs, 1_000), sequence % 1_000)
  }

  /** `send_command`: at least one above the published acknowledgement, if there is one. */
  function SendId(w: World, tool: ToolKey, unixMs: u64, sequence: u64): nat {
    Max(NextCommandId(unixMs, sequence),
        if tool in w.states then SaturatingAdd(w.states[tool].acknowledged, 1) else 0)
  }

  /** Two ids increase exactly when the clock advanced, or stood still without the counter wrapping. */
  lemma IdsIncreaseExactly(ms: u64, sequence: u64, ms': u64, sequence': u64)
    requires ms * 1_000 + 999 <= U64_MAX && ms' * 1_000 + 999 <= U64_MAX
    ensures NextCommandId(ms, sequence) < NextCommandId(ms', sequence')
       <==> ms < ms' || (ms == ms' && sequence % 1_000 < sequence' % 1_000)
  {
    assert ms < ms' ==> ms * 1_000 + 1_000 <= ms' * 1_000;
    assert ms' < ms ==> ms' * 1_000 + 1_000 <= ms * 1_000;
  }

  ghost predicate LargestIssued(w: World, tool: ToolKey, id: nat) {
    Ticket(tool, id) in w.issued && forall k | k in w.issued && k.tool == tool :: k.id <= id
  }

  /** The id chosen by `send_command` is new exactly when the clock's own id is, or when everything
      issued so far for the tool has been acknowledged in a state file that is still there. */
  lemma SendIdIsFreshExactly(worlds: seq<World>, steps: seq<Step>, n: nat, tool: ToolKey, largest: u64, ms: u64,
                             sequence: u64)
    requires IsRun(worlds, steps) && n < |worlds|
    requires LargestIssued(worlds[n], tool, largest) && largest < U64_MAX
    ensures Fresh(worlds[n], tool, SendId(worlds[n], tool, ms, sequence))
       <==> NextCommandId(ms, sequence) > largest
            || (tool in worlds[n].states && worlds[n].states[tool].acknowledged == largest)
  {
    RunKeepsBase(worlds, steps, n);
    var w := worlds[n];
    if tool in w.states {
      assert NoneOrIssued(w.issued, tool, w.states[tool].acknowledged);
    }
  }

  /** A clock that stepped back, by any amount and whatever the counter did, yields an id that does not exceed
      the ids issued, as long as the command sent before the step is not acknowledged. */
  lemma ClockSteppingBackBreaksIncrease(w: World, tool: ToolKey, ms: u64, sequence: u64, ms': u64, sequence': u64)
    requires ms' < ms && ms * 1_000 + 999 <= U64_MAX
    requires Ticket(tool, NextCommandId(ms, sequence)) in w.issued
    requires tool in w.states ==> w.states[tool].acknowledged < NextCommandId(ms, sequence)
    ensures !Fresh(w, tool, SendId(w, tool, ms', sequence'))
  {
    IdsIncreaseExactly(ms', sequence', ms, sequence);
  }
}
