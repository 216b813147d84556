/** What it means that a proxy drops its pending command: the order of executions and the honesty of
    acknowledgements together. */
module ElevatedSafety {
  import opened Basics
  import opened ElevatedProtocol
  import opened ElevatedBase
  import opened ElevatedOrder
  import opened ElevatedHonesty

  ghost predicate IsLastLifecycle(log: seq<Execution>, tool: ToolKey, i: nat) {
    && i < |log| && log[i].ticket.tool == tool && log[i].command.Lifecycle()
    && forall j | i < j < |log| && log[j].ticket.tool == tool :: log[j].command.SampleMemory?
  }

  ghost function LastLifecycle(log: seq<Execution>, tool: ToolKey, from: nat): (i: nat)
    requires from < |log| && log[from].ticket.tool == tool && log[from].command.Lifecycle()
    ensures from <= i && IsLastLifecycle(log, tool, i)
    decreases |log| - from
  {
    if j :| from < j < |log| && log[j].ticket.tool == tool && log[j].command.Lifecycle()
    then LastLifecycle(log, tool, j) else from
  }

  /** The last lifecycle execution of the tool is the command `q`. */
  ghost predicate LastLifecycleRan(log: seq<Execution>, tool: ToolKey, q: Pending) {
    exists i | 0 <= i < |log| ::
      IsLastLifecycle(log, tool, i) && log[i].ticket == Ticket(tool, q.id) && log[i].command == q.command
  }

  /** Once the latest lifecycle command has run, no other lifecycle command of its tool runs after it. */
  lemma NothingNewerRan(w: World, tool: ToolKey, id: nat, from: nat, i: nat)
    requires LogInv(w) && LogOrdered(w.log, w.issued) && Latest(w.issued, tool, id)
    requires from <= i < |w.log| && w.log[from].ticket == Ticket(tool, id)
    requires w.log[i].ticket.tool == tool && w.log[i].command.Lifecycle()
    ensures w.log[i].ticket == Ticket(tool, id) && w.log[i].command == w.issued[Ticket(tool, id)]
  {
    assert w.log[i] in w.log;
    assert EntrySound(w.log[i], w.managed, w.helper.incarnation, w.issued);
    assert from < i ==> MayFollow(w.log[from], w.log[i], w.issued);
  }

  lemma LatestRanLast(w: World, tool: ToolKey, q: Pending)
    requires LogInv(w) && LogOrdered(w.log, w.issued)
    requires Latest(w.issued, tool, q.id) && w.issued[Ticket(tool, q.id)] == q.command
    requires Ticket(tool, q.id) in Done(w.log)
    ensures LastLifecycleRan(w.log, tool, q)
  {
    var e :| e in w.log && e.ticket == Ticket(tool, q.id);
    assert EntrySound(e, w.managed, w.helper.incarnation, w.issued);
    var from: nat :| from < |w.log| && w.log[from] == e;
    var i := LastLifecycle(w.log, tool, from);
    NothingNewerRan(w, tool, q.id, from, i);
  }

  /** When a proxy drops its pending command because it was acknowledged, the last lifecycle command
      the helpers executed for the tool is that very command, so it points where the user wants. */
  lemma DroppedMeansDone(worlds: seq<World>, steps: seq<Step>, n: nat, tool: ToolKey)
    requires IsOrderlyRun(worlds, steps) && IsLosslessRun(worlds, steps) && n < |steps|
    requires steps[n].ProxyRead? && steps[n].tool == tool
    requires worlds[n].proxies[tool].pending.Some? && worlds[n + 1].proxies[tool].pending.None?
    ensures LastLifecycleRan(worlds[n + 1].log, tool, worlds[n].proxies[tool].pending.value)
    ensures worlds[n].proxies[tool].pending.value.command.WantsRunning() == worlds[n + 1].proxies[tool].desired
  {
    RunKeepsOrder(worlds, steps, n);
    RunKeeps(worlds, steps, n);
    var w := worlds[n];
    assert PendingSound(w.issued, tool, w.proxies[tool]);
    assert Honest(w.issued, Done(w.log), tool, w.states[tool].acknowledged);
    LatestRanLast(w, tool, w.proxies[tool].pending.value);
  }
}
