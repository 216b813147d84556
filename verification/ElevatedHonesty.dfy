/**
 What an acknowledgement means, over every run in which no failed claim passes over an unexecuted command
 for good, crashes and resends included: nothing at or below it is missing, and nothing is lost.
 */
module ElevatedHonesty {
  import opened Basics
  import opened ElevatedProtocol
  import opened ElevatedBase

  /** Everything issued for `tool` up to `id` has been executed. */
  ghost predicate Honest(issued: Commands, done: set<Ticket>, tool: ToolKey, id: nat) {
    forall k | k in issued && k.tool == tool && k.id <= id :: k in done
  }

  ghost predicate NotLost(w: World) {
    forall k | k in w.issued && k.tool in w.managed :: k in Done(w.log) || k in w.commands || k in w.claimed
  }

  /** The pass has seen every unexecuted command that precedes one of its own. */
  ghost predicate PassComplete(unhandled: set<Ticket>, managed: set<ToolKey>, issued: Commands, done: set<Ticket>) {
    forall x, y | x in unhandled && y in issued && x.tool == y.tool && y.tool in managed && y.id <= x.id ::
      y in done || y in unhandled
  }

  ghost predicate PassInv(w: World) {
    PassComplete(Unhandled(w.helper.at), w.managed, w.issued, Done(w.log))
  }

  ghost predicate AcksHonest(w: World) {
    && (forall t | t in w.helper.acknowledged :: Honest(w.issued, Done(w.log), t, w.helper.acknowledged[t]))
    && (forall t | t in w.states :: Honest(w.issued, Done(w.log), t, w.states[t].acknowledged))
  }

  ghost predicate Kept(w: World) {
    NotLost(w) && PassInv(w) && AcksHonest(w)
  }

  // ---------- helper steps ----------

  lemma ClaimKeeps(w: World)
    requires FilesInv(w) && Kept(w) && w.helper.at.Passing? && w.helper.at.todo != []
    ensures Kept(Claim(w))
  {
    ClaimKeepsFiles(w);
  }

  /** A pass may do without `k` if nothing depends on it. */
  lemma CompleteWithout(k: Ticket, rest: set<Ticket>, managed: set<ToolKey>, issued: Commands, done: set<Ticket>)
    requires PassComplete({k} + rest, managed, issued, done)
    requires k.tool !in managed || k in done || forall x | x in rest :: x.tool != k.tool
    ensures PassComplete(rest, managed, issued, done)
  {
  }

  lemma LosesNothing(w: World, s: Step)
    requires s.HelperSkip? && w.helper.at.Passing? && w.helper.at.todo != [] && !Loses(w, s)
    ensures var k, rest := w.helper.at.todo[0], w.helper.at.todo[1..];
            k.tool !in w.managed || k in Done(w.log) || forall x | x in Names(rest) :: x.tool != k.tool
  {
  }

  lemma SkipKeepsPass(w: World, s: Step)
    requires FilesInv(w) && PassInv(w) && HelperEnabled(w, s) && s.HelperSkip? && !Loses(w, s)
    ensures PassInv(HelperDo(w, s))
  {
    var k, rest := w.helper.at.todo[0], w.helper.at.todo[1..];
    SplitTodo(w.helper.at.todo);
    LosesNothing(w, s);
    CompleteWithout(k, Names(rest), w.managed, w.issued, Done(w.log));
    assert HelperDo(w, s) == SetAt(w, Passing(rest));
  }

  lemma SkipKeeps(w: World, s: Step)
    requires FilesInv(w) && Kept(w) && HelperEnabled(w, s) && s.HelperSkip? && !Loses(w, s)
    ensures Kept(HelperDo(w, s))
  {
    SkipKeepsPass(w, s);
  }

  lemma PassedOverIsMissing(w: World, s: Step)
    requires FilesInv(w) && HelperEnabled(w, s) && s.HelperSkip? && Loses(w, s)
    ensures !PassComplete(Names(w.helper.at.todo[1..]), w.managed, w.issued, Done(w.log))
  {
    var k, rest := w.helper.at.todo[0], w.helper.at.todo[1..];
    SplitTodo(w.helper.at.todo);
    var x :| x in rest && x.tool == k.tool;
    assert x in Names(rest) && k.id <= x.id;
    assert k in Names(w.helper.at.todo) && k in w.issued && k !in Names(rest);
  }

  /** After a failed claim the pass still holds every unexecuted command that precedes one of its own exactly
      when the failed claim loses nothing. */
  lemma SkipKeepsPassExactly(w: World, s: Step)
    requires FilesInv(w) && PassInv(w) && HelperEnabled(w, s) && s.HelperSkip?
    ensures PassInv(HelperDo(w, s)) <==> !Loses(w, s)
  {
    if Loses(w, s) {
      PassedOverIsMissing(w, s);
    } else {
      SkipKeepsPass(w, s);
    }
  }

  /** When the held command runs, everything issued before it for its tool has run. */
  lemma HeldCompletesPrefix(w: World)
    requires FilesInv(w) && PassInv(w) && w.helper.at.Holding? && w.helper.at.current.tool in w.managed
    ensures forall y | y in w.issued && y.tool == w.helper.at.current.tool && y.id <= w.helper.at.current.id ::
              y in Done(w.log) + {w.helper.at.current}
  {
    var k, todo := w.helper.at.current, w.helper.at.todo;
    assert k in Unhandled(w.helper.at);
    forall y | y in w.issued && y.tool == k.tool && y.id <= k.id && y !in Done(w.log)
      ensures y == k
    {
      assert y in Unhandled(w.helper.at);
      if y in Names(todo) {
        assert y.id == k.id && y.tool == k.tool;
      }
    }
  }

  lemma DroppedHasRun(w: World)
    requires FilesInv(w) && AcksHonest(w) && w.helper.at.Holding? && w.helper.at.current in w.claimed && !Executes(w)
    ensures w.helper.at.current.tool in w.managed ==> w.helper.at.current in Done(w.log)
  {
  }

  lemma DropKeeps(w: World)
    requires FilesInv(w) && Kept(w) && w.helper.at.Holding? && w.helper.at.current in w.claimed && !Executes(w)
    ensures Kept(Handle(w))
  {
    var k, todo := w.helper.at.current, w.helper.at.todo;
    DroppedHasRun(w);
    CompleteWithout(k, Names(todo), w.managed, w.issued, Done(w.log));
  }

  lemma ExecuteKeepsPass(w: World)
    requires FilesInv(w) && NotLost(w) && PassInv(w)
    requires w.helper.at.Holding? && w.helper.at.current in w.claimed && Executes(w)
    ensures NotLost(Handle(w)) && PassInv(Handle(w))
  {
    var k, todo, w' := w.helper.at.current, w.helper.at.todo, Handle(w);
    DoneAppend(w.log, Last(w'.log));
    assert Unhandled(w.helper.at) == {k} + Names(todo);
    assert PassComplete(Names(todo), w.managed, w.issued, Done(w'.log));
  }

  lemma ExecuteKeepsAcks(w: World)
    requires FilesInv(w) && PassInv(w) && AcksHonest(w)
    requires w.helper.at.Holding? && w.helper.at.current in w.claimed && Executes(w)
    ensures AcksHonest(Handle(w))
  {
    var k, w' := w.helper.at.current, Handle(w);
    DoneAppend(w.log, Last(w'.log));
    HeldCompletesPrefix(w);
    assert Honest(w.issued, Done(w'.log), k.tool, k.id);
  }

  lemma HandleKeeps(w: World)
    requires FilesInv(w) && Kept(w) && w.helper.at.Holding? && w.helper.at.current in w.claimed
    ensures Kept(Handle(w))
  {
    if Executes(w) {
      ExecuteKeepsPass(w);
      ExecuteKeepsAcks(w);
    } else {
      DropKeeps(w);
    }
  }

  lemma RemoveKeeps(w: World)
    requires FilesInv(w) && Kept(w) && w.helper.at.Finished?
    ensures Kept(Remove(w))
  {
  }

  lemma RecoverKeeps(w: World, s: Step)
    requires Kept(w) && HelperEnabled(w, s) && s.HelperRecover?
    ensures Kept(HelperDo(w, s))
  {
  }

  lemma ListKeeps(w: World, s: Step)
    requires FilesInv(w) && Kept(w) && HelperEnabled(w, s) && s.HelperList?
    ensures Kept(HelperDo(w, s))
  {
  }

  lemma LoadKeeps(w: World, s: Step)
    requires FilesInv(w) && Kept(w) && HelperEnabled(w, s) && s.HelperLoad?
    ensures Kept(HelperDo(w, s))
  {
  }

  lemma RenameKeeps(w: World, s: Step)
    requires FilesInv(w) && Kept(w) && HelperEnabled(w, s) && s.HelperRename?
    ensures Kept(HelperDo(w, s))
  {
  }

  lemma OthersKeep(w: World, s: Step)
    requires Kept(w) && HelperEnabled(w, s)
    requires s.HelperStart? || s.HelperEndPass? || s.HelperUnlink? || s.HelperCrash?
    ensures Kept(HelperDo(w, s))
  {
  }

  lemma HelperKeeps(w: World, s: Step)
    requires Base(w) && Kept(w) && HelperEnabled(w, s) && !Loses(w, s)
    ensures Kept(HelperDo(w, s))
  {
    match s
    case HelperRecover => RecoverKeeps(w, s);
    case HelperList(_) => ListKeeps(w, s);
    case HelperClaim => ClaimKeeps(w);
    case HelperSkip => SkipKeeps(w, s);
    case HelperHandle => HandleKeeps(w);
    case HelperRemove => RemoveKeeps(w);
    case HelperLoad => LoadKeeps(w, s);
    case HelperRename(_) => RenameKeeps(w, s);
    case _ => OthersKeep(w, s);
  }

  // ---------- proxy steps ----------

  lemma WriteKeepsHonesty(w: World, effect: Effect)
    requires Base(w) && AcksHonest(w) && CanWrite(w, effect)
    ensures AcksHonest(Write(w, effect))
  {
    var w' := Write(w, effect);
    WriteKeepsFiles(w, effect);
    WriteGrows(w, effect);
    forall t, id | NoneOrIssued(w.issued, t, id) && Honest(w.issued, Done(w.log), t, id)
      ensures Honest(w'.issued, Done(w.log), t, id)
    {
    }
  }

  lemma WriteKeepsPass(w: World, effect: Effect)
    requires Base(w) && NotLost(w) && PassInv(w) && CanWrite(w, effect)
    ensures NotLost(Write(w, effect)) && PassInv(Write(w, effect))
  {
    WriteKeepsFiles(w, effect);
    assert forall x | x in Unhandled(w.helper.at) :: x in w.issued;
  }

  lemma StepKeeps(w: World, s: Step)
    requires Base(w) && Kept(w) && Enabled(w, s) && !Loses(w, s)
    ensures Kept(Do(w, s))
  {
    if HelperEnabled(w, s) {
      HelperKeeps(w, s);
    } else {
      var effect := ProxyWrites(w, s);
      WriteKeepsPass(w, effect);
      WriteKeepsHonesty(w, effect);
    }
  }

  // ---------- every run ----------

  lemma {:induction false} RunKeeps(worlds: seq<World>, steps: seq<Step>, n: nat)
    requires IsLosslessRun(worlds, steps) && n < |worlds|
    ensures Base(worlds[n]) && Kept(worlds[n])
  {
    RunKeepsBase(worlds, steps, n);
    if n > 0 {
      RunKeeps(worlds, steps, n - 1);
      StepKeeps(worlds[n - 1], steps[n - 1]);
    }
  }

  /** Whatever was issued up to a published acknowledgement has been executed. */
  lemma AcknowledgementIsHonest(worlds: seq<World>, steps: seq<Step>, n: nat, tool: ToolKey, k: Ticket)
    requires IsLosslessRun(worlds, steps) && n < |worlds|
    requires tool in worlds[n].states && k in worlds[n].issued
    requires k.tool == tool && k.id <= worlds[n].states[tool].acknowledged
    ensures exists e :: e in worlds[n].log && e.ticket == k && e.command == worlds[n].issued[k]
  {
    RunKeeps(worlds, steps, n);
    var w := worlds[n];
    assert Honest(w.issued, Done(w.log), tool, w.states[tool].acknowledged);
    var e :| e in w.log && e.ticket == k;
    assert EntrySound(e, w.managed, w.helper.incarnation, w.issued);
  }

  /** A command for a tool the helper manages is executed or still on disk, never lost. */
  lemma CommandsAreConserved(worlds: seq<World>, steps: seq<Step>, n: nat, k: Ticket)
    requires IsLosslessRun(worlds, steps) && n < |worlds|
    requires k in worlds[n].issued && k.tool in worlds[n].managed
    ensures k in Done(worlds[n].log) || k in worlds[n].commands || k in worlds[n].claimed
    ensures k in worlds[n].claimed ==>
              var at := worlds[n].helper.at; !Loaded(at) || at.Holding? || at.Finished?
  {
    RunKeeps(worlds, steps, n);
  }
}
