/** What is never executed again, in every run, also when claims fail and commands are overtaken. */
module ElevatedRepeats {
  import opened Basics
  import opened ElevatedProtocol
  import opened ElevatedBase

  /** What the helper remembers is at least what it has published. */
  ghost predicate Covers(w: World) {
    Loaded(w.helper.at) ==>
      forall t | t in w.states && t in w.managed :: w.states[t].acknowledged <= Acked(w.helper, t)
  }

  ghost predicate IncreasesWithin(log: seq<Execution>) {
    forall i, j | 0 <= i < j < |log| :: NotRepeated(log[i], log[j])
  }

  /** One helper executes the ids of a tool in increasing order. */
  ghost predicate NotRepeated(a: Execution, b: Execution) {
    a.ticket.tool == b.ticket.tool && a.incarnation == b.incarnation ==> a.ticket.id < b.ticket.id
  }

  lemma HandleKeepsIncreasing(w: World)
    requires LogInv(w) && IncreasesWithin(w.log) && w.helper.at.Holding? && w.helper.at.current in w.claimed
    ensures IncreasesWithin(Handle(w).log)
  {
    if Executes(w) {
      var k, log' := w.helper.at.current, Handle(w).log;
      assert log' == w.log + [Execution(w.helper.incarnation, k, w.claimed[k])];
      forall i | 0 <= i < |w.log|
        ensures NotRepeated(log'[i], Last(log'))
      {
        assert w.log[i] in w.log && Remembered(w.log[i], w.helper);
      }
    }
  }

  lemma HandleKeepsCovers(w: World)
    requires Covers(w) && w.helper.at.Holding? && w.helper.at.current in w.claimed
    ensures Covers(Handle(w))
  {
  }

  lemma OthersKeepCovers(w: World, s: Step)
    requires Covers(w) && HelperEnabled(w, s) && !s.HelperHandle?
    ensures Covers(HelperDo(w, s))
  {
  }

  lemma StepKeepsBoth(w: World, s: Step)
    requires Base(w) && Covers(w) && IncreasesWithin(w.log) && Enabled(w, s)
    ensures Covers(Do(w, s)) && IncreasesWithin(Do(w, s).log)
  {
    if !HelperEnabled(w, s) {
      var effect := ProxyWrites(w, s);
      WriteGrows(w, effect);
    } else if s.HelperHandle? {
      HandleKeepsCovers(w);
      HandleKeepsIncreasing(w);
    } else {
      OthersKeepCovers(w, s);
      OthersKeepLog(w, s);
    }
  }

  lemma {:induction false} RunKeepsBoth(worlds: seq<World>, steps: seq<Step>, n: nat)
    requires IsRun(worlds, steps) && n < |worlds|
    ensures Base(worlds[n]) && Covers(worlds[n]) && IncreasesWithin(worlds[n].log)
  {
    RunKeepsBase(worlds, steps, n);
    if n > 0 {
      RunKeepsBoth(worlds, steps, n - 1);
      StepKeepsBoth(worlds[n - 1], steps[n - 1]);
    }
  }

  /** One helper never executes an id of a tool twice, nor an older id after a newer one. */
  lemma OneHelperNeverRepeats(worlds: seq<World>, steps: seq<Step>, n: nat, i: nat, j: nat)
    requires IsRun(worlds, steps) && n < |worlds| && i < j < |worlds[n].log|
    requires worlds[n].log[i].ticket.tool == worlds[n].log[j].ticket.tool
    requires worlds[n].log[i].incarnation == worlds[n].log[j].incarnation
    ensures worlds[n].log[i].ticket.id < worlds[n].log[j].ticket.id
  {
    RunKeepsBoth(worlds, steps, n);
    assert NotRepeated(worlds[n].log[i], worlds[n].log[j]);
  }

  lemma OnlyHandlingExecutes(w: World, s: Step)
    requires Base(w) && Enabled(w, s) && |w.log| < |Do(w, s).log|
    ensures HelperEnabled(w, s) && s.HelperHandle? && Executes(w) && Last(Do(w, s).log).ticket == w.helper.at.current
  {
    if !HelperEnabled(w, s) {
      var effect := ProxyWrites(w, s);
      WriteGrows(w, effect);
    } else if !s.HelperHandle? {
      OthersKeepLog(w, s);
    }
  }

  /** No helper, whatever crashed before it, executes a command at or below the id that stands
      acknowledged in the tool's state file. */
  lemma AcknowledgedIsNotRepeated(worlds: seq<World>, steps: seq<Step>, n: nat)
    requires IsRun(worlds, steps) && n < |steps| && |worlds[n].log| < |worlds[n + 1].log|
    ensures var k := Last(worlds[n + 1].log).ticket;
            k.tool in worlds[n].states ==> worlds[n].states[k.tool].acknowledged < k.id
  {
    RunKeepsBoth(worlds, steps, n);
    OnlyHandlingExecutes(worlds[n], steps[n]);
  }
}
