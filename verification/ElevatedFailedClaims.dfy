/**
 What a failed claim does, exactly, when nobody disturbs the rest of the pass: when it makes the helper's
 acknowledgement dishonest, and when it puts the command that could not be claimed out of order.
 */
module ElevatedFailedClaims {
  import opened Basics
  import opened ElevatedProtocol
  import opened ElevatedBase
  import opened ElevatedOrder
  import opened ElevatedHonesty
  import opened ElevatedPass
  import opened ElevatedProgress

  ghost predicate Ran(d: Desk, x: Ticket) {
    exists e | e in d.log :: e.ticket == x
  }

  // ---------- what a pass executes ----------

  lemma DeskOneEffect(d: Desk, managed: set<ToolKey>, incarnation: nat, k: Ticket)
    ensures var d' := DeskOne(d, managed, incarnation, k);
            && (forall tool :: DeskAcked(d, tool) <= DeskAcked(d', tool))
            && (forall tool | tool != k.tool :: DeskAcked(d', tool) == DeskAcked(d, tool))
            && DeskAcked(d', k.tool) <= Max(DeskAcked(d, k.tool), k.id)
            && d'.commands == d.commands - {k} && d.log <= d'.log
            && (forall e | e in d'.log ::
                  e in d.log || (e.ticket == k && k.tool in managed && DeskAcked(d, k.tool) < k.id))
            && (k in d.commands && k.tool in managed && DeskAcked(d, k.tool) < k.id ==>
                  Ran(d', k) && DeskAcked(d', k.tool) == k.id)
  {
    assert k !in d.commands ==> d.commands - {k} == d.commands;
    var d' := DeskOne(d, managed, incarnation, k);
    if d'.log != d.log {
      assert d'.log == d.log + [Execution(incarnation, k, d.commands[k])];
      assert Last(d'.log) in d'.log && Last(d'.log).ticket == k;
    }
  }

  /** A pass forgets nothing. */
  lemma {:induction false} DeskPassGrows(d: Desk, managed: set<ToolKey>, incarnation: nat, todo: seq<Ticket>)
    ensures var d' := DeskPass(d, managed, incarnation, todo);
            && d.log <= d'.log && forall tool :: DeskAcked(d, tool) <= DeskAcked(d', tool)
    decreases |todo|
  {
    if todo != [] {
      DeskOneEffect(d, managed, incarnation, todo[0]);
      DeskPassGrows(DeskOne(d, managed, incarnation, todo[0]), managed, incarnation, todo[1..]);
    }
  }

  /** What a pass executes was listed, for a managed tool, and not acknowledged. */
  lemma {:induction false} DeskPassExecutesListed(d: Desk, managed: set<ToolKey>, incarnation: nat,
                                                  todo: seq<Ticket>, e: Execution)
    requires e in DeskPass(d, managed, incarnation, todo).log
    ensures e in d.log || (e.ticket in todo && e.ticket.tool in managed && DeskAcked(d, e.ticket.tool) < e.ticket.id)
    decreases |todo|
  {
    if todo != [] {
      DeskOneEffect(d, managed, incarnation, todo[0]);
      DeskPassExecutesListed(DeskOne(d, managed, incarnation, todo[0]), managed, incarnation, todo[1..], e);
    }
  }

  /** And everything of this kind is executed. */
  lemma {:induction false} DeskPassExecutes(d: Desk, managed: set<ToolKey>, incarnation: nat,
                                            todo: seq<Ticket>, x: Ticket)
    requires Distinct(todo) && SortedById(todo)
    requires x in todo && x in d.commands && x.tool in managed && DeskAcked(d, x.tool) < x.id
    ensures var d' := DeskPass(d, managed, incarnation, todo); Ran(d', x) && x.id <= DeskAcked(d', x.tool)
    decreases |todo|
  {
    var head, rest := todo[0], todo[1..];
    var d1 := DeskOne(d, managed, incarnation, head);
    DeskOneEffect(d, managed, incarnation, head);
    DeskPassGrows(d1, managed, incarnation, rest);
    if x == head {
      var e :| e in d1.log && e.ticket == x;
      assert e in DeskPass(d1, managed, incarnation, rest).log;
    } else {
      SplitTodo(todo);
      assert x in Names(rest) && head.id <= x.id && (head.tool == x.tool ==> head.id != x.id);
      DeskPassExecutes(d1, managed, incarnation, rest, x);
    }
  }

  // ---------- the world after the pass ----------

  /** The world at the end of the pass, after the claim of its next command has failed. */
  function AfterSkip(w: World): World
    requires w.helper.at.Passing? && w.helper.at.todo != []
  {
    Pass(SetAt(w, Passing(w.helper.at.todo[1..])))
  }

  lemma AfterSkipOnDesk(w: World)
    requires w.helper.at.Passing? && w.helper.at.todo != []
    ensures DeskOf(AfterSkip(w)) == DeskPass(DeskOf(w), w.managed, w.helper.incarnation, w.helper.at.todo[1..])
    ensures SameScope(w, AfterSkip(w))
  {
    var skipped := SetAt(w, Passing(w.helper.at.todo[1..]));
    PassOnDesk(skipped);
    PassFrame(skipped);
  }

  lemma {:induction false} PassLeavesOthers(w: World, k: Ticket)
    requires w.helper.at.Passing? && k in w.commands && k !in w.helper.at.todo
    ensures k in Pass(w).commands
    decreases |w.helper.at.todo|
  {
    var todo := w.helper.at.todo;
    if todo != [] {
      PassOneFrame(w);
      assert todo == [todo[0]] + todo[1..];
      PassLeavesOthers(PassOne(w), k);
    }
  }

  // ---------- honesty ----------

  lemma LosingAcknowledges(w: World)
    requires FilesInv(w) && HelperEnabled(w, HelperSkip) && Loses(w, HelperSkip)
    ensures w.helper.at.todo[0].id <= Acked(AfterSkip(w).helper, w.helper.at.todo[0].tool)
  {
    var rest := w.helper.at.todo[1..];
    var x := Overtaking(w);
    AfterSkipOnDesk(w);
    DeskPassGrows(DeskOf(w), w.managed, w.helper.incarnation, rest);
    if DeskAcked(DeskOf(w), x.tool) < x.id {
      DeskPassExecutes(DeskOf(w), w.managed, w.helper.incarnation, rest, x);
    }
    assert Acked(AfterSkip(w).helper, x.tool) == DeskAcked(DeskOf(AfterSkip(w)), x.tool);
  }

  lemma SkippedDoesNotRun(w: World)
    requires w.helper.at.Passing? && w.helper.at.todo != []
    requires w.helper.at.todo[0] !in w.helper.at.todo[1..] && w.helper.at.todo[0] !in Done(w.log)
    ensures w.helper.at.todo[0] !in Done(AfterSkip(w).log)
  {
    var w' := AfterSkip(w);
    AfterSkipOnDesk(w);
    forall e | e in w'.log
      ensures e.ticket != w.helper.at.todo[0]
    {
      assert e in DeskOf(w').log;
      DeskPassExecutesListed(DeskOf(w), w.managed, w.helper.incarnation, w.helper.at.todo[1..], e);
    }
  }

  /** A command that is overtaken after its claim failed counts as acknowledged at the end of the pass,
      although it has not run. */
  lemma LosingIsDishonest(w: World)
    requires FilesInv(w) && HelperEnabled(w, HelperSkip) && Loses(w, HelperSkip)
    ensures var k, w' := w.helper.at.todo[0], AfterSkip(w);
            !Honest(w'.issued, Done(w'.log), k.tool, Acked(w'.helper, k.tool))
  {
    var _ := Overtaking(w);
    LosingAcknowledges(w);
    SkippedDoesNotRun(w);
    AfterSkipOnDesk(w);
  }

  lemma Overtaking(w: World) returns (x: Ticket)
    requires FilesInv(w) && HelperEnabled(w, HelperSkip) && Loses(w, HelperSkip)
    ensures var k, rest := w.helper.at.todo[0], w.helper.at.todo[1..];
            && x in rest && x in w.commands && x.tool == k.tool && k.id <= x.id
            && k in w.issued && k !in rest && Distinct(rest) && SortedById(rest)
  {
    var todo := w.helper.at.todo;
    SplitTodo(todo);
    x :| x in todo[1..] && x.tool == todo[0].tool;
    assert x in Names(todo[1..]) && todo[0] in Names(todo);
  }

  lemma HonestAfterSkip(w: World, tool: ToolKey)
    requires Good(w) && HelperEnabled(w, HelperSkip) && !Loses(w, HelperSkip)
    ensures var w' := AfterSkip(w); Honest(w'.issued, Done(w'.log), tool, Acked(w'.helper, tool))
  {
    HelperKeepsBase(w, HelperSkip);
    HelperKeeps(w, HelperSkip);
    QuietPassKeeps(HelperDo(w, HelperSkip));
    assert PositiveIds(AfterSkip(w).issued);
  }

  /** When a claim fails and the rest of the pass is not disturbed, the acknowledgement the helper ends up with
      for the command's tool is honest exactly when the failed claim lets nothing overtake an unexecuted
      command. */
  lemma FailedClaimExactly(worlds: seq<World>, steps: seq<Step>, n: nat, k: Ticket)
    requires IsLosslessRun(worlds, steps) && n < |worlds| && HelperEnabled(worlds[n], HelperSkip)
    requires worlds[n].helper.at.todo[0] == k
    ensures var w := AfterSkip(worlds[n]);
            Honest(w.issued, Done(w.log), k.tool, Acked(w.helper, k.tool)) <==> !Loses(worlds[n], HelperSkip)
  {
    RunKeeps(worlds, steps, n);
    if Loses(worlds[n], HelperSkip) {
      LosingIsDishonest(worlds[n]);
    } else {
      HonestAfterSkip(worlds[n], k.tool);
    }
  }

  // ---------- order ----------

  /** `k` may still be executed after everything that was. */
  ghost predicate FollowsAll(w: World, k: Ticket) {
    forall e | e in w.log && e.ticket.tool == k.tool :: InOrder(w.issued, e.ticket, k)
  }

  lemma DisorderedIsBehind(w: World)
    requires FilesInv(w) && HelperEnabled(w, HelperSkip) && Disorders(w, HelperSkip)
    ensures !FollowsAll(AfterSkip(w), w.helper.at.todo[0])
  {
    var k, rest, w' := w.helper.at.todo[0], w.helper.at.todo[1..], AfterSkip(w);
    SplitTodo(w.helper.at.todo);
    var x :| x in rest && x.tool == k.tool && Acked(w.helper, x.tool) < x.id && !InOrder(w.issued, x, k);
    assert x in Names(rest);
    AfterSkipOnDesk(w);
    DeskPassExecutes(DeskOf(w), w.managed, w.helper.incarnation, rest, x);
    var e :| e in DeskOf(w').log && e.ticket == x;
    assert e in w'.log && !InOrder(w'.issued, e.ticket, k);
  }

  lemma OrderlyFollows(w: World)
    requires Base(w) && Ordered(w) && HelperEnabled(w, HelperSkip) && !Disorders(w, HelperSkip)
    ensures FollowsAll(AfterSkip(w), w.helper.at.todo[0])
  {
    var k, rest, w' := w.helper.at.todo[0], w.helper.at.todo[1..], AfterSkip(w);
    AfterSkipOnDesk(w);
    assert k in Names(w.helper.at.todo) && k in w.commands;
    forall e | e in w'.log && e.ticket.tool == k.tool
      ensures InOrder(w'.issued, e.ticket, k)
    {
      assert e in DeskOf(w').log;
      DeskPassExecutesListed(DeskOf(w), w.managed, w.helper.incarnation, rest, e);
    }
  }

  /** When a claim fails and the rest of the pass is not disturbed, the command is still there at its end, and
      it may be executed after everything that was, exactly when the failed claim lets nothing that will run
      overtake it out of order. */
  lemma FailedClaimDisordersExactly(worlds: seq<World>, steps: seq<Step>, n: nat, k: Ticket)
    requires IsOrderlyRun(worlds, steps) && n < |worlds| && HelperEnabled(worlds[n], HelperSkip)
    requires worlds[n].helper.at.todo[0] == k
    ensures k in AfterSkip(worlds[n]).commands
    ensures FollowsAll(AfterSkip(worlds[n]), k) <==> !Disorders(worlds[n], HelperSkip)
  {
    RunKeepsOrder(worlds, steps, n);
    var w := worlds[n];
    SplitTodo(w.helper.at.todo);
    assert k in Names(w.helper.at.todo);
    PassLeavesOthers(SetAt(w, Passing(w.helper.at.todo[1..])), k);
    if Disorders(w, HelperSkip) {
      DisorderedIsBehind(w);
    } else {
      OrderlyFollows(w);
    }
  }
}
