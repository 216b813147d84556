/** A deadline nobody used: a Start received while the child runs stays pending, and starts the tool once
    more after the child has gone. */
module WorkerDeadlines {
  import opened Basics
  import opened Worker
  import opened WorkerSafety

  // ---------- where a pending deadline comes from ----------

  /** Iteration `m` received a Start while it held `child`. */
  predicate StartedWhileHeld(states: seq<State>, inputs: seq<Inputs>, m: int, child: Child) {
    0 <= m < |states| && m < |inputs| && inputs[m].control.Start? && states[m].l.process == Some(child)
  }

  ghost predicate WasStartedWhileHeld(states: seq<State>, inputs: seq<Inputs>, n: int, child: Child) {
    exists m | 0 <= m < n :: StartedWhileHeld(states, inputs, m, child)
  }

  lemma ReceiveEffect(s: Stage, i: Inputs)
    ensures var l, l' := s.l, ReceiveControl(s, i).l;
            && l'.spawned == l.spawned
            && (l'.process.Some? ==>
                  l'.process == l.process && (l'.nextStart.Some? <==> l.nextStart.Some? || i.control.Start?))
  {
  }

  lemma CheckExitEffect(cfg: Config, s: Stage, i: Inputs)
    ensures var l, l' := s.l, CheckExit(cfg, s, i).l;
            l'.spawned == l.spawned && (l'.process.Some? ==> l' == l)
  {
  }

  /** The child held afterwards was held before, or it is new and has used up the deadline. */
  lemma TryStartEffect(cfg: Config, s: Stage, i: Inputs)
    ensures var l, l' := s.l, TryStart(cfg, s, i).l;
            && l.spawned <= l'.spawned
            && (l'.process.Some? ==> l' == l || (l'.nextStart.None? && l'.process.value.serial >= l.spawned))
  {
  }

  /** What an iteration does to a held child: it keeps it, and its deadline, or takes a new one. */
  ghost predicate ChildStep(l: Locals, i: Inputs, l': Locals) {
    && l.spawned <= l'.spawned
    && (l'.process.Some? ==>
          || (l'.process == l.process && (l'.nextStart.Some? <==> l.nextStart.Some? || i.control.Start?))
          || (l'.nextStart.None? && l'.process.value.serial >= l.spawned))
  }

  lemma ChildAfter(cfg: Config, s: State, i: Inputs)
    ensures ChildStep(s.l, i, Next(cfg, s, i).l)
  {
    var received := ReceiveControl(Stage(s.l, s.rt, s.h, []), i);
    ReceiveEffect(Stage(s.l, s.rt, s.h, []), i);
    if !i.control.Shutdown? {
      CheckExitEffect(cfg, received, i);
      TryStartEffect(cfg, CheckExit(cfg, received, i), i);
    }
  }

  /** Every iteration is such a step, and a held child is always one that was spawned. */
  ghost predicate ChildRun(states: seq<State>, inputs: seq<Inputs>) {
    && |states| == |inputs| + 1
    && states[0].l.process.None?
    && (forall n | 0 <= n < |states| && states[n].l.process.Some? ::
          states[n].l.process.value.serial < states[n].l.spawned)
    && (forall n | 0 <= n < |inputs| :: ChildStep(states[n].l, inputs[n], states[n + 1].l))
  }

  lemma HeldIsSpawned(l: Locals, h: History)
    requires ChildrenAccounted(l, h) && l.process.Some?
    ensures l.process.value.serial < l.spawned
  {
  }

  lemma RunIsChildRun(cfg: Config, states: seq<State>, inputs: seq<Inputs>)
    requires IsRun(cfg, states, inputs)
    ensures ChildRun(states, inputs)
  {
    forall n | 0 <= n < |states| && states[n].l.process.Some?
      ensures states[n].l.process.value.serial < states[n].l.spawned
    {
      RunKeeps(cfg, states, inputs, n);
      HeldIsSpawned(states[n].l, states[n].h);
    }
    forall n | 0 <= n < |inputs|
      ensures ChildStep(states[n].l, inputs[n], states[n + 1].l)
    {
      ChildAfter(cfg, states[n], inputs[n]);
    }
  }

  lemma {:induction false} SpawnedGrows(states: seq<State>, inputs: seq<Inputs>, m: nat, n: nat)
    requires ChildRun(states, inputs) && m <= n < |states|
    ensures states[m].l.spawned <= states[n].l.spawned
    decreases n
  {
    if m < n {
      SpawnedGrows(states, inputs, m, n - 1);
      assert ChildStep(states[n - 1].l, inputs[n - 1], states[n - 1 + 1].l);
    }
  }

  /** A held child has a deadline pending exactly when a Start arrived while it was held. */
  lemma {:induction false} DeadlineMeansStart(states: seq<State>, inputs: seq<Inputs>, n: nat)
    requires ChildRun(states, inputs) && n < |states| && states[n].l.process.Some?
    ensures states[n].l.nextStart.Some? <==> WasStartedWhileHeld(states, inputs, n, states[n].l.process.value)
    decreases n
  {
    if n > 0 {
      var child := states[n].l.process.value;
      assert ChildStep(states[n - 1].l, inputs[n - 1], states[n - 1 + 1].l);
      if states[n - 1].l.process == Some(child) {
        DeadlineMeansStart(states, inputs, n - 1);
        OneMoreIteration(states, inputs, n - 1, child);
      } else {
        NeverHeldBefore(states, inputs, n - 1, child);
      }
    }
  }

  lemma OneMoreIteration(states: seq<State>, inputs: seq<Inputs>, n: nat, child: Child)
    requires n < |inputs| && n < |states| && states[n].l.process == Some(child)
    ensures WasStartedWhileHeld(states, inputs, n + 1, child)
       <==> WasStartedWhileHeld(states, inputs, n, child) || inputs[n].control.Start?
  {
    assert inputs[n].control.Start? ==> StartedWhileHeld(states, inputs, n, child);
  }

  lemma NeverHeldBefore(states: seq<State>, inputs: seq<Inputs>, n: nat, child: Child)
    requires ChildRun(states, inputs) && n < |states| && child.serial >= states[n].l.spawned
    ensures !WasStartedWhileHeld(states, inputs, n + 1, child)
  {
    forall m | 0 <= m <= n
      ensures !StartedWhileHeld(states, inputs, m, child)
    {
      SpawnedGrows(states, inputs, m, n);
    }
  }

  // ---------- the start nobody asked for ----------

  predicate Passed(l: Locals, now: nat) {
    l.nextStart.Some? ==> l.nextStart.value <= now
  }

  /** A tool that is wanted and down has no deadline left. */
  predicate UsedUp(l: Locals) {
    l.process.None? && l.desired ==> l.nextStart.None?
  }

  lemma ReceivedHasPassed(s: Stage, i: Inputs, clock: nat)
    requires Passed(s.l, clock) && clock <= i.atControl <= i.atExit
    ensures Passed(ReceiveControl(s, i).l, i.atControl)
  {
  }

  lemma CheckedHasPassed(cfg: Config, s: Stage, i: Inputs)
    requires Passed(s.l, i.atControl) && !cfg.autoRestart
    ensures Passed(CheckExit(cfg, s, i).l, i.atControl)
  {
  }

  lemma StartedUsesUp(cfg: Config, s: Stage, i: Inputs)
    requires Passed(s.l, i.atControl) && i.atControl <= i.atCheck && !cfg.autoRestart
    ensures Passed(TryStart(cfg, s, i).l, i.atControl) && UsedUp(TryStart(cfg, s, i).l)
  {
  }

  lemma NextHasPassed(cfg: Config, s: State, i: Inputs)
    requires Passed(s.l, s.clock) && Timely(s, i) && !cfg.autoRestart
    ensures var s' := Next(cfg, s, i); Passed(s'.l, s'.clock) && (!s'.ended ==> UsedUp(s'.l))
  {
    var received := ReceiveControl(Stage(s.l, s.rt, s.h, []), i);
    ReceivedHasPassed(Stage(s.l, s.rt, s.h, []), i, s.clock);
    if !i.control.Shutdown? {
      CheckedHasPassed(cfg, received, i);
      StartedUsesUp(cfg, CheckExit(cfg, received, i), i);
    }
  }

  lemma {:induction false} DeadlinesHavePassed(cfg: Config, states: seq<State>, inputs: seq<Inputs>, n: nat)
    requires IsRun(cfg, states, inputs) && n < |states| && !cfg.autoRestart
    ensures Passed(states[n].l, states[n].clock)
    ensures n > 0 && !states[n].ended ==> UsedUp(states[n].l)
  {
    if n > 0 {
      DeadlinesHavePassed(cfg, states, inputs, n - 1);
      NextHasPassed(cfg, states[n - 1], inputs[n - 1]);
    }
  }

  /** With automatic restart off, an iteration without a request starts the tool in exactly one case: the
      child has now gone, and a Start had arrived while that same child was held. */
  lemma UnaskedStartExactly(cfg: Config, states: seq<State>, inputs: seq<Inputs>, n: nat)
    requires IsRun(cfg, states, inputs) && 1 <= n < |inputs| && !cfg.autoRestart
    requires inputs[n].control.Tick? || inputs[n].control.Sample?
    ensures states[n + 1].h.attempts > states[n].h.attempts
       <==> && states[n].l.process.Some? && inputs[n].poll.Gone?
            && WasStartedWhileHeld(states, inputs, n, states[n].l.process.value)
  {
    RunKeeps(cfg, states, inputs, n);
    DeadlinesHavePassed(cfg, states, inputs, n);
    assert !states[n].ended;
    if states[n].l.process.Some? {
      RunIsChildRun(cfg, states, inputs);
      DeadlineMeansStart(states, inputs, n);
    }
  }

  // ---------- a run in which it happens ----------

  function At(control: Control, poll: Poll, start: StartResult, now: nat): Inputs {
    Inputs(control, now, ObservedExit, poll, now, now, start, now)
  }

  function Patient(): Config {
    Config(false, false, 0, 3, 60_000)
  }

  /** The tool was started by a request. */
  function Running(): State {
    State(Locals(Some(Child(0, 100)), true, None, [], 1),
          Runtime(ToolState.Running, Some(100), Memory.Idle, 0, Some(0)),
          History(1, 1, 0, 0, [], 0, {}, {}), 0, false)
  }

  lemma StartRuns()
    ensures Next(Patient(), InitialState(Patient(), 0), At(Start, Alive, Started(100, 0), 0)) == Running()
  {
  }

  /** It was told to start once more. */
  function Reminded(): State {
    var s := Running();
    s.(l := s.l.(nextStart := Some(1_000)), h := s.h.(startControls := 2), clock := 1_000)
  }

  lemma StartAgain()
    ensures Next(Patient(), Running(), At(Start, Alive, NotSpawned, 1_000)) == Reminded()
  {
  }

  lemma ExitStartsAgain()
    ensures var s := Next(Patient(), Reminded(), At(Tick, Gone, Started(200, 2_000), 2_000));
            s.l.process == Some(Child(1, 200)) && s.h.attempts == 2
  {
  }

  /** A tool that is neither started nor restarted by itself is started, told to start again while it
      runs, and exits: it is started once more, although only a tick was received. */
  lemma UnaskedStartHappens()
    ensures exists states: seq<State>, inputs: seq<Inputs> ::
              && IsRun(Patient(), states, inputs) && |inputs| == 3 && inputs[2].control.Tick?
              && states[2].l.process == Some(Child(0, 100)) && states[3].l.process == Some(Child(1, 200))
              && states[3].h.attempts == states[2].h.attempts + 1
  {
    StartRuns();
    StartAgain();
    ExitStartsAgain();
    var inputs := [At(Start, Alive, Started(100, 0), 0), At(Start, Alive, NotSpawned, 1_000),
                   At(Tick, Gone, Started(200, 2_000), 2_000)];
    var states := [InitialState(Patient(), 0), Running(), Reminded(), Next(Patient(), Reminded(), inputs[2])];
    assert IsRun(Patient(), states, inputs);
  }
}
