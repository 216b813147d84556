/** One undisturbed pass of the helper over the command files, and the loop that runs it. */
module ElevatedPass {
  import opened Basics
  import opened ElevatedProtocol

  /** What is left to do with a command once it was claimed. */
  function Complete(w: World): World
    requires w.helper.at.Holding? && w.helper.at.current in w.claimed
  {
    var handled := Handle(w);
    if handled.helper.at.Finished? then Remove(handled) else handled
  }

  /** Claims, handles and removes the next command of the pass. */
  function PassOne(w: World): World
    requires w.helper.at.Passing? && w.helper.at.todo != []
  {
    var claimed := Claim(w);
    if claimed.helper.at.Holding? then Complete(claimed) else claimed
  }

  /** `b` has the managed tools and the issued commands of `a`. */
  ghost predicate SameScope(a: World, b: World) {
    a.managed == b.managed && a.issued == b.issued
  }

  lemma ClaimFrame(w: World)
    requires w.helper.at.Passing? && w.helper.at.todo != []
    ensures SameScope(w, Claim(w)) && Claim(w).commands == w.commands - {w.helper.at.todo[0]}
    ensures Claim(w).helper.at.Passing? ==> Claim(w).helper.at.todo == w.helper.at.todo[1..]
    ensures Claim(w).helper.at.Holding? ==> Claim(w).helper.at.todo == w.helper.at.todo[1..]
  {
  }

  lemma HandleFrame(w: World)
    requires w.helper.at.Holding? && w.helper.at.current in w.claimed
    ensures SameScope(w, Handle(w)) && Handle(w).commands == w.commands
    ensures Handle(w).helper.at == Passing(w.helper.at.todo)
            || Handle(w).helper.at == Finished(w.helper.at.current, w.helper.at.todo)
  {
  }

  lemma RemoveFrame(w: World)
    requires w.helper.at.Finished?
    ensures SameScope(w, Remove(w)) && Remove(w).commands == w.commands
            && Remove(w).helper.at == Passing(w.helper.at.todo)
  {
  }

  lemma CompleteFrame(w: World)
    requires w.helper.at.Holding? && w.helper.at.current in w.claimed
    ensures SameScope(w, Complete(w)) && Complete(w).commands == w.commands
            && Complete(w).helper.at == Passing(w.helper.at.todo)
  {
    HandleFrame(w);
    if Handle(w).helper.at.Finished? {
      RemoveFrame(Handle(w));
    }
  }

  lemma PassOneFrame(w: World)
    requires w.helper.at.Passing? && w.helper.at.todo != []
    ensures PassOne(w).helper.at == Passing(w.helper.at.todo[1..])
    ensures PassOne(w).commands == w.commands - {w.helper.at.todo[0]}
    ensures SameScope(w, PassOne(w))
  {
    ClaimFrame(w);
    if Claim(w).helper.at.Holding? {
      CompleteFrame(Claim(w));
    }
  }

  /** A whole pass with nobody else at work. */
  function Pass(w: World): World
    requires w.helper.at.Passing?
    decreases |w.helper.at.todo|
  {
    if w.helper.at.todo == [] then w else
      PassOneFrame(w);
      Pass(PassOne(w))
  }

  lemma {:induction false} PassFrame(w: World)
    requires w.helper.at.Passing?
    ensures SameScope(w, Pass(w)) && Pass(w).helper.at == Passing([])
    decreases |w.helper.at.todo|
  {
    if w.helper.at.todo != [] {
      PassOneFrame(w);
      PassFrame(PassOne(w));
    }
  }

  // ---------- what a pass works on ----------

  /** The part of the world that a pass works on. */
  datatype Desk = Desk(
    commands: map<Ticket, Command>,
    claimed: map<Ticket, Command>,
    acknowledged: map<ToolKey, nat>,
    changed: bool,
    log: seq<Execution>)

  function DeskOf(w: World): Desk {
    Desk(w.commands, w.claimed, w.helper.acknowledged, w.helper.changed, w.log)
  }

  function DeskAcked(d: Desk, tool: ToolKey): nat {
    if tool in d.acknowledged then d.acknowledged[tool] else 0
  }

  function AfterExecution(d: Desk, incarnation: nat, k: Ticket, c: Command): Desk {
    d.(acknowledged := d.acknowledged[k.tool := k.id], changed := true, log := d.log + [Execution(incarnation, k, c)])
  }

  /** One command of the pass, as `PassOne` leaves the desk. */
  function DeskOne(d: Desk, managed: set<ToolKey>, incarnation: nat, k: Ticket): Desk {
    if k !in d.commands then d else
      var d' := d.(commands := d.commands - {k}, claimed := d.claimed - {k});
      if k.tool !in managed || k.id <= DeskAcked(d, k.tool) then d'
      else AfterExecution(d', incarnation, k, d.commands[k])
  }

  function DeskPass(d: Desk, managed: set<ToolKey>, incarnation: nat, todo: seq<Ticket>): Desk
    decreases |todo|
  {
    if todo == [] then d else DeskPass(DeskOne(d, managed, incarnation, todo[0]), managed, incarnation, todo[1..])
  }

  lemma HandleOnDesk(w: World)
    requires w.helper.at.Holding? && w.helper.at.current in w.claimed
    ensures var k := w.helper.at.current;
            if Executes(w)
            then Handle(w).helper.at == Finished(k, w.helper.at.todo)
                 && DeskOf(Handle(w)) == AfterExecution(DeskOf(w), w.helper.incarnation, k, w.claimed[k])
            else Handle(w).helper.at.Passing? && DeskOf(Handle(w)) == DeskOf(w).(claimed := w.claimed - {k})
    ensures Handle(w).helper.incarnation == w.helper.incarnation
  {
  }

  lemma CompleteOnDesk(w: World)
    requires w.helper.at.Holding? && w.helper.at.current in w.claimed
    ensures var k := w.helper.at.current;
            var d := DeskOf(w).(claimed := w.claimed - {k});
            DeskOf(Complete(w)) == if Executes(w) then AfterExecution(d, w.helper.incarnation, k, w.claimed[k]) else d
    ensures Complete(w).helper.incarnation == w.helper.incarnation
  {
    HandleOnDesk(w);
  }

  lemma ClaimOnDesk(w: World)
    requires w.helper.at.Passing? && w.helper.at.todo != [] && w.helper.at.todo[0] in w.commands
    ensures var k := w.helper.at.todo[0];
            && Claim(w).helper.at.Holding? && Claim(w).helper.at.current == k
            && DeskOf(Claim(w)) == DeskOf(w).(commands := w.commands - {k}, claimed := w.claimed[k := w.commands[k]])
    ensures Claim(w).helper.incarnation == w.helper.incarnation && Claim(w).managed == w.managed
  {
  }

  lemma ClaimThenComplete(d: Desk, claimed: Desk, completed: Desk, managed: set<ToolKey>, incarnation: nat, k: Ticket)
    requires k in d.commands
    requires claimed == d.(commands := d.commands - {k}, claimed := d.claimed[k := d.commands[k]])
    requires var runs := k.tool in managed && DeskAcked(claimed, k.tool) < k.id;
             var cleared := claimed.(claimed := claimed.claimed - {k});
             completed == if runs then AfterExecution(cleared, incarnation, k, claimed.claimed[k]) else cleared
    ensures completed == DeskOne(d, managed, incarnation, k)
  {
    assert claimed.claimed - {k} == d.claimed - {k};
  }

  lemma PassOneOnDesk(w: World)
    requires w.helper.at.Passing? && w.helper.at.todo != []
    ensures DeskOf(PassOne(w)) == DeskOne(DeskOf(w), w.managed, w.helper.incarnation, w.helper.at.todo[0])
    ensures PassOne(w).helper.incarnation == w.helper.incarnation
  {
    var k := w.helper.at.todo[0];
    if k in w.commands {
      ClaimOnDesk(w);
      var claimed := Claim(w);
      CompleteOnDesk(claimed);
      ClaimThenComplete(DeskOf(w), DeskOf(claimed), DeskOf(Complete(claimed)), w.managed, w.helper.incarnation, k);
    }
  }

  lemma {:induction false} PassOnDesk(w: World)
    requires w.helper.at.Passing?
    ensures DeskOf(Pass(w)) == DeskPass(DeskOf(w), w.managed, w.helper.incarnation, w.helper.at.todo)
    decreases |w.helper.at.todo|
  {
    if w.helper.at.todo != [] {
      PassOneFrame(w);
      PassOneOnDesk(w);
      PassOnDesk(PassOne(w));
    }
  }

  // ---------- the program ----------

  /** The helper process: what it remembers, and the control directory it works on. */
  class HelperProcess {
    const managed: set<ToolKey>
    const incarnation: nat
    var acknowledged: map<ToolKey, nat>
    var changed: bool
    var commands: map<Ticket, Command>
    var claimed: map<Ticket, Command>
    ghost var log: seq<Execution>

    constructor (managed: set<ToolKey>, incarnation: nat, commands: map<Ticket, Command>,
                 acknowledged: map<ToolKey, nat>)
      ensures this.managed == managed && this.incarnation == incarnation && this.commands == commands
      ensures this.acknowledged == acknowledged && !changed && claimed == map[] && log == []
    {
      this.managed, this.incarnation, this.commands, this.acknowledged := managed, incarnation, commands, acknowledged;
      changed, claimed, log := false, map[], [];
    }

    ghost function View(): Desk
      reads this
    {
      Desk(commands, claimed, acknowledged, changed, log)
    }

    /** Claims, handles and removes one command file. */
    method RunOne(k: Ticket)
      modifies this
      ensures View() == DeskOne(old(View()), managed, incarnation, k)
    {
      if k !in commands {
        return;
      }
      var command := commands[k];
      claimed, commands := claimed[k := command], commands - {k};
      var last := if k.tool in acknowledged then acknowledged[k.tool] else 0;
      if k.tool in managed && last < k.id {
        log := log + [Execution(incarnation, k, command)];
        acknowledged, changed := acknowledged[k.tool := k.id], true;
      }
      claimed := claimed - {k};
      assert claimed == old(claimed) - {k};
    }

    /** The loop over the sorted command files: it does to the directory and to what the helper
        remembers what the steps of a pass do to the world. */
    method RunPass(listing: seq<Ticket>, ghost w: World)
      requires View() == DeskOf(w) && managed == w.managed && incarnation == w.helper.incarnation
      requires w.helper.at == Passing(listing)
      modifies this
      ensures View() == DeskOf(Pass(w))
    {
      PassOnDesk(w);
      for i := 0 to |listing|
        invariant DeskPass(View(), managed, incarnation, listing[i..])
                  == DeskPass(DeskOf(w), managed, incarnation, listing)
      {
        RunOne(listing[i]);
        assert listing[i..][1..] == listing[i + 1..];
      }
    }
  }
}
