/** What becomes of a watchdog: what it can read at each moment of a run, how the ordinary end of a guard disarms
    it, and when a new one is started.  The statements name the answers of the kernel and the states of the two
    processes, not the functions of the model. */
module WatchdogOutcomes {
  import opened Basics
  import opened Stopping
  import opened Watchdog

  /** A probe that takes the tree for empty: no such process group, and no cgroup that speaks against it. */
  predicate FoundEmpty(p: Probe) {
    p.group.NoSuchGroup? && (p.cgroup.NoScope? || p.cgroup.Unpopulated?)
  }

  /** The disarming byte has been written before world `n`. */
  ghost predicate HasDisarmed(steps: seq<Step>, n: nat) {
    exists d | 0 <= d < n && d < |steps| :: steps[d] == Disarm(true)
  }

  lemma {:induction false} PipeFollowsSteps(worlds: seq<World>, steps: seq<Step>, n: nat)
    requires IsRun(worlds, steps) && n < |worlds|
    ensures HasDisarmed(steps, n) ==> worlds[n].manager.Awaiting? || worlds[n].manager.Gone?
    ensures worlds[n].dog.Some? ==> (worlds[n].dog.value.disarm <==> HasDisarmed(steps, n))
  {
    if n > 0 {
      PipeFollowsSteps(worlds, steps, n - 1);
      assert worlds[n] == Do(worlds[n - 1], steps[n - 1]);
      assert HasDisarmed(steps, n) <==> HasDisarmed(steps, n - 1) || steps[n - 1] == Disarm(true);
      DisarmWrites(worlds[n - 1], steps[n - 1]);
    }
  }

  lemma DisarmWrites(w: World, s: Step)
    requires Enabled(w, s)
    ensures var w' := Do(w, s);
            && (w.manager.Awaiting? || w.manager.Gone? ==> w'.manager.Awaiting? || w'.manager.Gone?)
            && (s == Disarm(true) ==> w'.manager.Awaiting?)
            && (w.dog.None? && !w.manager.Guarding? ==> w'.dog.None?)
            && (w'.dog.Some? ==>
                  if s == Disarm(true) then w'.dog.value.disarm
                  else if w.dog.None? then !w'.dog.value.disarm
                  else w.manager.Guarding? || w'.dog.value.disarm == w.dog.value.disarm)
            && (w'.dog.Some? && w.manager.Guarding? ==>
                  !w'.dog.value.disarm || (w.dog.Some? && w.dog.value.disarm))
  {
  }

  /** In every run, what a reading watchdog can find in its pipe: the byte that disarms it exactly when the manager
      has written it, the end of the pipe exactly when the manager has let go of it without that byte, and never
      another byte.  Reading the byte ends the watchdog, with nothing done to the tree. */
  lemma PipeExactly(worlds: seq<World>, steps: seq<Step>, n: nat)
    requires IsRun(worlds, steps) && n < |worlds|
    requires worlds[n].dog.Some? && worlds[n].dog.value.at.Reading?
    ensures var w, disarmed := worlds[n], HasDisarmed(steps, n);
            && (Enabled(w, DogReads(Data(true))) <==> disarmed)
            && (Enabled(w, DogReads(EndOfFile)) <==> !disarmed && (w.manager.Awaiting? || w.manager.Gone?))
            && !Enabled(w, DogReads(Data(false)))
            && (disarmed ==>
                  Do(w, DogReads(Data(true)))
                  == w.(dog := Some(Dog(Ended(Disarmed), true, false)), ended := w.ended + [Disarmed]))
  {
    PipeFollowsSteps(worlds, steps, n);
    RunKeeps(worlds, steps, n);
  }

  /** Whatever else a read returns: an interrupted one is repeated, every other one starts the stop. */
  lemma OtherReadsStopTree(worlds: seq<World>, steps: seq<Step>, n: nat, event: PipeRead)
    requires IsRun(worlds, steps) && n < |steps| && steps[n] == DogReads(event) && event != Data(true)
    ensures var w := worlds[n];
            w.dog.Some?
            && worlds[n + 1] == if event.Interrupted? then w
                                else w.(dog := Some(w.dog.value.(at := StoppingTree)))
  {
  }

  /** A step after the byte was written, with no failing read. */
  lemma DisarmedStep(w: World, s: Step)
    requires Inv(w) && Enabled(w, s) && s != DogReads(ReadError)
    requires w.dog.Some? && w.dog.value.disarm && (w.manager.Awaiting? || w.manager.Gone?)
    requires var at := w.dog.value.at; at.Reading? || at == Ended(Disarmed) || at == Ended(KilledByManager)
    ensures var w' := Do(w, s);
            w'.dog.Some?
            && var at := w'.dog.value.at; at.Reading? || at == Ended(Disarmed) || at == Ended(KilledByManager)
  {
  }

  /** In every run: a watchdog that was waiting when the manager wrote the byte is not lost, and unless one of its
      reads fails it never goes on to stop the tree: it keeps reading, ends disarmed, or is killed because it did
      not end in time. */
  lemma {:induction false} DisarmedDogNeverStops(worlds: seq<World>, steps: seq<Step>, d: nat, n: nat)
    requires IsRun(worlds, steps) && d < n < |worlds|
    requires steps[d] == Disarm(true) && worlds[d].dog.Some? && worlds[d].dog.value.at.Reading?
    requires forall m | d < m < n :: steps[m] != DogReads(ReadError)
    ensures worlds[n].dog.Some?
    ensures var at := worlds[n].dog.value.at;
            at.Reading? || at == Ended(Disarmed) || at == Ended(KilledByManager)
  {
    if n == d + 1 {
      assert worlds[n] == Do(worlds[d], steps[d]);
    } else {
      DisarmedDogNeverStops(worlds, steps, d, n - 1);
      assert HasDisarmed(steps, n - 1);
      PipeFollowsSteps(worlds, steps, n - 1);
      RunKeeps(worlds, steps, n - 1);
      DisarmedStep(worlds[n - 1], steps[n - 1]);
    }
  }

  /** In every run, what dropping the guard does.  Without a watchdog nothing is left to do.  With the tree found
      empty the manager goes on to disarm.  In every other case it is gone, and the watchdog, not disarmed, is left
      with the end of its pipe. */
  lemma DropExactly(worlds: seq<World>, steps: seq<Step>, n: nat)
    requires IsRun(worlds, steps) && n < |steps| && steps[n].Drop?
    ensures var w, w' := worlds[n], worlds[n + 1];
            if w.dog.None? then
              w' == w.(manager := Gone)
            else if FoundEmpty(steps[n].probe) then
              w' == w.(manager := Disarming, managerSawEmpty := true)
            else
              w' == w.(manager := Gone, dog := Some(Dog(w.dog.value.at, false, false)))
  {
    GuardedDogIsNotDisarmed(worlds, steps, n);
    assert worlds[n + 1] == Do(worlds[n], steps[n]);
  }

  /** In every run, what a health check does.  A watchdog that runs is left alone.  One that has ended or is missing
      is replaced, unless the tree is found empty, by one that waits for the manager on a pipe of its own; when the
      new one does not report ready there is none. */
  lemma HealthCheckExactly(worlds: seq<World>, steps: seq<Step>, n: nat)
    requires IsRun(worlds, steps) && n < |steps| && steps[n].CheckHealth?
    ensures var w, w' := worlds[n], worlds[n + 1];
            if w.dog.Some? && !w.dog.value.at.Ended? then
              w' == w
            else if FoundEmpty(steps[n].probe) || !steps[n].ready then
              w' == w.(dog := None)
            else
              w' == w.(dog := Some(Dog(Reading, false, true)))
  {
    assert worlds[n + 1] == Do(worlds[n], steps[n]);
  }

  /** Attaching a process gives it a watchdog that waits, or none when the watchdog does not report ready. */
  lemma AttachExactly(worlds: seq<World>, steps: seq<Step>, n: nat)
    requires IsRun(worlds, steps) && n < |steps| && steps[n].Attach?
    ensures worlds[n].dog.None?
    ensures worlds[n + 1]
            == worlds[n].(dog := if steps[n].ready then Some(Dog(Reading, false, true)) else None)
  {
    assert worlds[n + 1] == Do(worlds[n], steps[n]);
  }

  /** In every run, one turn of a watchdog that stops the tree: it ends when it finds the tree empty, issues its
      kill when its time is up, and goes on otherwise. */
  lemma PollExactly(worlds: seq<World>, steps: seq<Step>, n: nat)
    requires IsRun(worlds, steps) && n < |steps| && steps[n].DogPolls?
    ensures var w, w', p := worlds[n], worlds[n + 1], steps[n].probe;
            w.dog.Some?
            && if FoundEmpty(p) then
                 && w'.dog == Some(w.dog.value.(at := Ended(SawTreeEmpty)))
                 && w'.ended == w.ended + [SawTreeEmpty]
               else if steps[n].late then
                 && w'.dog == Some(w.dog.value.(at := Ended(IssuedKill))) && w'.ended == w.ended + [IssuedKill]
               else
                 w' == w
  {
    assert worlds[n + 1] == Do(worlds[n], steps[n]);
  }

  /** In every run, how a guard that has tried to disarm its watchdog is done: one that still runs is killed if it
      did not end in time, and is otherwise left as it is. */
  lemma AwaitExactly(worlds: seq<World>, steps: seq<Step>, n: nat)
    requires IsRun(worlds, steps) && n < |steps| && steps[n].AwaitEnds?
    ensures var w, w' := worlds[n], worlds[n + 1];
            && w.managerSawEmpty && w'.manager.Gone?
            && if steps[n].killed && w.dog.Some? && !w.dog.value.at.Ended? then
                 && w'.dog == Some(w.dog.value.(at := Ended(KilledByManager)))
                 && w'.ended == w.ended + [KilledByManager]
               else
                 w'.dog == w.dog && w'.ended == w.ended
  {
    RunKeeps(worlds, steps, n);
    assert worlds[n + 1] == Do(worlds[n], steps[n]);
  }

  /** The ordinary end, step by step: from every world of a run in which the guard is held and its watchdog reads,
      finding the tree empty, writing the byte and the watchdog's read lead to a watchdog that ended disarmed, and
      waiting for it leaves the manager gone. */
  lemma OrdinaryEnd(worlds: seq<World>, steps: seq<Step>, n: nat, p: Probe)
    requires IsRun(worlds, steps) && n < |worlds|
    requires worlds[n].manager.Guarding? && worlds[n].dog.Some? && worlds[n].dog.value.at.Reading?
    requires FoundEmpty(p) && worlds[n].treeEmpty
    ensures var w := worlds[n];
            && Enabled(w, Drop(p)) && Enabled(Do(w, Drop(p)), Disarm(true))
            && var v := Do(Do(w, Drop(p)), Disarm(true));
            && Enabled(v, DogReads(Data(true)))
            && var u := Do(v, DogReads(Data(true)));
            && Enabled(u, AwaitEnds(false))
            && Do(u, AwaitEnds(false))
               == World(Gone, Some(Dog(Ended(Disarmed), true, false)), true, true, w.ended + [Disarmed])
  {
    GuardedDogIsNotDisarmed(worlds, steps, n);
  }
}
