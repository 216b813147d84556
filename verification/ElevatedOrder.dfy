/**
 The order of executions over every run in which no failed claim breaks it, crashes and resends included.

 It does not rest on the state files at all: it follows from the sorted pass, from recovery, and from the
 proxy resending nothing but its latest lifecycle command.  So it survives even a crash between removing
 and renaming a state file, which loses the file.
 */
module ElevatedOrder {
  import opened Basics
  import opened ElevatedProtocol
  import opened ElevatedBase

  /** `e` may be executed after `earlier`. */
  ghost predicate MayFollow(earlier: Execution, e: Execution, issued: Commands) {
    earlier.ticket.tool == e.ticket.tool ==>
      && InOrder(issued, earlier.ticket, e.ticket)
      && earlier.incarnation <= e.incarnation
      && (earlier.incarnation == e.incarnation ==> earlier.ticket.id < e.ticket.id)
  }

  ghost predicate LogOrdered(log: seq<Execution>, issued: Commands) {
    forall i, j | 0 <= i < j < |log| :: MayFollow(log[i], log[j], issued)
  }

  /** What is on disk may follow everything executed. */
  ghost predicate FollowLog(log: seq<Execution>, files: Commands, issued: Commands) {
    forall e, k | e in log && k in files && e.ticket.tool == k.tool :: InOrder(issued, e.ticket, k)
  }

  /** The helper will execute `k` if it gets to it now. */
  ghost predicate WillRun(w: World, k: Ticket) {
    k.tool in w.managed && Acked(w.helper, k.tool) < k.id
  }

  /** A file that is not in the pass may follow everything the pass will still execute. */
  ghost predicate LateInOrder(w: World) {
    forall x, y | x in Unhandled(w.helper.at) && WillRun(w, x)
                  && y in w.commands && y !in Names(Todo(w.helper.at)) && x.tool == y.tool ::
      InOrder(w.issued, x, y)
  }

  ghost predicate Ordered(w: World) {
    && FollowLog(w.log, w.commands, w.issued) && FollowLog(w.log, w.claimed, w.issued)
    && LogOrdered(w.log, w.issued) && LateInOrder(w)
  }

  // ---------- helper steps ----------

  lemma ClaimKeepsOrder(w: World)
    requires FilesInv(w) && Ordered(w) && w.helper.at.Passing? && w.helper.at.todo != []
    ensures Ordered(Claim(w))
  {
    SplitTodo(w.helper.at.todo);
    ClaimKeepsFiles(w);
  }

  lemma SkipKeepsOrder(w: World, s: Step)
    requires FilesInv(w) && Ordered(w) && HelperEnabled(w, s) && s.HelperSkip? && !Disorders(w, s)
    ensures Ordered(HelperDo(w, s))
  {
    var todo, w' := w.helper.at.todo, HelperDo(w, s);
    SplitTodo(todo);
    forall x, y | x in Names(todo[1..]) && WillRun(w', x)
                  && y in w.commands && y !in Names(todo[1..]) && x.tool == y.tool
      ensures InOrder(w.issued, x, y)
    {
      if y != todo[0] {
        assert x in Unhandled(w.helper.at) && WillRun(w, x) && y !in Names(todo);
      }
    }
  }

  /** A command about to be executed may be followed by everything on disk. */
  lemma HeldPrecedesFiles(w: World)
    requires FilesInv(w) && LateInOrder(w) && w.helper.at.Holding? && Executes(w)
    ensures forall y | y in w.commands && y.tool == w.helper.at.current.tool ::
              InOrder(w.issued, w.helper.at.current, y)
  {
    var k, todo := w.helper.at.current, w.helper.at.todo;
    forall y | y in w.commands && y.tool == k.tool
      ensures InOrder(w.issued, k, y)
    {
      if y !in Names(todo) {
        assert k in Unhandled(w.helper.at) && WillRun(w, k);
      }
    }
  }

  lemma OrderedAppend(log: seq<Execution>, e: Execution, issued: Commands)
    requires LogOrdered(log, issued) && forall earlier | earlier in log :: MayFollow(earlier, e, issued)
    ensures LogOrdered(log + [e], issued)
  {
    var log' := log + [e];
    forall i, j | 0 <= i < j < |log'|
      ensures MayFollow(log'[i], log'[j], issued)
    {
      if j < |log| {
        assert log'[i] == log[i] && log'[j] == log[j];
      } else {
        assert log'[i] in log;
      }
    }
  }

  lemma HeldMayFollow(w: World, earlier: Execution)
    requires FollowLog(w.log, w.claimed, w.issued) && LogInv(w) && earlier in w.log
    requires w.helper.at.Holding? && w.helper.at.current in w.claimed && Executes(w)
    ensures var k := w.helper.at.current;
            MayFollow(earlier, Execution(w.helper.incarnation, k, w.claimed[k]), w.issued)
  {
    assert EntrySound(earlier, w.managed, w.helper.incarnation, w.issued) && Remembered(earlier, w.helper);
  }

  lemma ExecuteKeepsLog(w: World)
    requires FilesInv(w) && LogInv(w) && Ordered(w)
    requires w.helper.at.Holding? && w.helper.at.current in w.claimed && Executes(w)
    ensures var w' := Handle(w);
            && FollowLog(w'.log, w'.commands, w'.issued) && FollowLog(w'.log, w'.claimed, w'.issued)
            && LogOrdered(w'.log, w'.issued)
  {
    var k := w.helper.at.current;
    var e := Execution(w.helper.incarnation, k, w.claimed[k]);
    HeldPrecedesFiles(w);
    forall earlier | earlier in w.log
      ensures MayFollow(earlier, e, w.issued)
    {
      HeldMayFollow(w, earlier);
    }
    OrderedAppend(w.log, e, w.issued);
    assert forall x | x in w.log + [e] :: x in w.log || x == e;
  }

  lemma HandleKeepsLate(w: World)
    requires LateInOrder(w) && w.helper.at.Holding? && w.helper.at.current in w.claimed
    ensures LateInOrder(Handle(w))
  {
    var w' := Handle(w);
    forall x, y | x in Unhandled(w'.helper.at) && WillRun(w', x)
                  && y in w.commands && y !in Names(Todo(w'.helper.at)) && x.tool == y.tool
      ensures InOrder(w.issued, x, y)
    {
      assert x in Unhandled(w.helper.at) && WillRun(w, x);
    }
  }

  lemma HandleKeepsOrder(w: World)
    requires FilesInv(w) && LogInv(w) && Ordered(w) && w.helper.at.Holding? && w.helper.at.current in w.claimed
    ensures Ordered(Handle(w))
  {
    HandleKeepsLate(w);
    if Executes(w) {
      ExecuteKeepsLog(w);
    }
  }

  lemma RemoveKeepsOrder(w: World)
    requires Ordered(w) && w.helper.at.Finished?
    ensures Ordered(Remove(w))
  {
  }

  lemma RecoverKeepsOrder(w: World, s: Step)
    requires FilesInv(w) && Ordered(w) && HelperEnabled(w, s) && s.HelperRecover?
    ensures Ordered(HelperDo(w, s))
  {
  }

  lemma ListKeepsOrder(w: World, s: Step)
    requires Ordered(w) && HelperEnabled(w, s) && s.HelperList?
    ensures Ordered(HelperDo(w, s))
  {
  }

  lemma QuietKeepsOrder(w: World, s: Step)
    requires Ordered(w) && HelperEnabled(w, s) && Quiet(s)
    ensures Ordered(HelperDo(w, s))
  {
  }

  lemma HelperKeepsOrder(w: World, s: Step)
    requires Base(w) && Ordered(w) && HelperEnabled(w, s) && !Disorders(w, s)
    ensures Ordered(HelperDo(w, s))
  {
    match s
    case HelperRecover => RecoverKeepsOrder(w, s);
    case HelperList(_) => ListKeepsOrder(w, s);
    case HelperClaim => ClaimKeepsOrder(w);
    case HelperSkip => SkipKeepsOrder(w, s);
    case HelperHandle => HandleKeepsOrder(w);
    case HelperRemove => RemoveKeepsOrder(w);
    case _ => QuietKeepsOrder(w, s);
  }

  // ---------- proxy steps ----------

  lemma OrderGrows(log: seq<Execution>, files: Commands, issued: Commands, issued': Commands)
    requires FollowLog(log, files, issued) && LogOrdered(log, issued)
    requires forall k | k in issued :: k in issued' && issued'[k] == issued[k]
    ensures FollowLog(log, files, issued') && LogOrdered(log, issued')
  {
    assert forall x, y | InOrder(issued, x, y) :: InOrder(issued', x, y);
    assert forall a, b | MayFollow(a, b, issued) :: MayFollow(a, b, issued');
  }

  lemma NewFollowsAll(w: World, k: Ticket, c: Command)
    requires Base(w) && Ordered(w) && CanWrite(w, New(k, c))
    ensures Ordered(Write(w, New(k, c)))
  {
    var w' := Write(w, New(k, c));
    WriteGrows(w, New(k, c));
    OrderGrows(w.log, w.commands, w.issued, w'.issued);
    OrderGrows(w.log, w.claimed, w.issued, w'.issued);
    forall e | e in w.log && e.ticket.tool == k.tool
      ensures InOrder(w'.issued, e.ticket, k)
    {
      assert EntrySound(e, w.managed, w.helper.incarnation, w.issued);
    }
    NewIsLate(w, k, c);
  }

  lemma NewIsLate(w: World, k: Ticket, c: Command)
    requires Base(w) && LateInOrder(w) && CanWrite(w, New(k, c))
    ensures LateInOrder(Write(w, New(k, c)))
  {
    var w' := Write(w, New(k, c));
    forall x, y | x in Unhandled(w.helper.at) && WillRun(w, x)
                  && y in w'.commands && y !in Names(Todo(w.helper.at)) && x.tool == y.tool
      ensures InOrder(w'.issued, x, y)
    {
      assert x in w.issued;
      assert y != k ==> InOrder(w.issued, x, y);
    }
  }

  lemma AgainFollowsAll(w: World, k: Ticket)
    requires Base(w) && Ordered(w) && CanWrite(w, Again(k))
    ensures Ordered(Write(w, Again(k)))
  {
    var w' := Write(w, Again(k));
    WriteKeepsFiles(w, Again(k));
    forall x | x in w.issued && x.tool == k.tool
      ensures InOrder(w.issued, x, k)
    {
    }
    forall e | e in w.log
      ensures e.ticket in w.issued
    {
      assert EntrySound(e, w.managed, w.helper.incarnation, w.issued);
    }
    assert forall x | x in Unhandled(w.helper.at) :: x in w.issued;
  }

  lemma WriteKeepsOrder(w: World, effect: Effect)
    requires Base(w) && Ordered(w) && CanWrite(w, effect)
    ensures Ordered(Write(w, effect))
  {
    match effect
    case Nothing =>
    case New(k, c) => NewFollowsAll(w, k, c);
    case Again(k) => AgainFollowsAll(w, k);
  }

  lemma StepKeepsOrder(w: World, s: Step)
    requires Base(w) && Ordered(w) && Enabled(w, s) && !Disorders(w, s)
    ensures Ordered(Do(w, s))
  {
    if HelperEnabled(w, s) {
      HelperKeepsOrder(w, s);
    } else {
      var effect := ProxyWrites(w, s);
      WriteKeepsOrder(w, effect);
    }
  }

  // ---------- every run ----------

  lemma {:induction false} RunKeepsOrder(worlds: seq<World>, steps: seq<Step>, n: nat)
    requires IsOrderlyRun(worlds, steps) && n < |worlds|
    ensures Base(worlds[n]) && Ordered(worlds[n])
  {
    RunKeepsBase(worlds, steps, n);
    if n > 0 {
      RunKeepsOrder(worlds, steps, n - 1);
      StepKeepsOrder(worlds[n - 1], steps[n - 1]);
    }
  }

  /** One tool's lifecycle commands never run out of id order, across any number of helper crashes;
      one helper never runs an id twice; and the only decreasing pair is a lifecycle command that a
      later helper runs again after an earlier helper's memory sample. */
  lemma ExecutionOrder(worlds: seq<World>, steps: seq<Step>, n: nat, i: nat, j: nat)
    requires IsOrderlyRun(worlds, steps) && n < |worlds|
    requires i < j < |worlds[n].log| && worlds[n].log[i].ticket.tool == worlds[n].log[j].ticket.tool
    ensures var a, b := worlds[n].log[i], worlds[n].log[j];
            && (a.command.Lifecycle() || b.command.SampleMemory? ==> a.ticket.id <= b.ticket.id)
            && (a.incarnation == b.incarnation ==> a.ticket.id < b.ticket.id)
            && a.incarnation <= b.incarnation
  {
    RunKeepsOrder(worlds, steps, n);
    var w := worlds[n];
    assert w.log[i] in w.log && w.log[j] in w.log;
    assert EntrySound(w.log[i], w.managed, w.helper.incarnation, w.issued);
    assert EntrySound(w.log[j], w.managed, w.helper.incarnation, w.issued);
    assert MayFollow(w.log[i], w.log[j], w.issued);
  }
}
