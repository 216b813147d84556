/**
 What an iteration of the worker comes to, in every run: how an exit and a failed start are answered, when
 the limiter is reset, what the restart counter shows, and what a started child is shown as.
 */
module WorkerOutcomes {
  import opened Basics
  import opened Worker
  import opened WorkerSafety

  // ---------- the window forgets ----------

  /** How many automatic restarts since the last reset fall into the window that ends now. */
  function Recent(autos: seq<nat>, now: nat, window: nat): nat {
    CountWithin(autos, SaturatingSub(now, window), now)
  }

  lemma {:induction false} CountAll(times: seq<nat>, lo: nat, hi: nat)
    requires forall i | 0 <= i < |times| :: lo <= times[i] <= hi
    ensures CountWithin(times, lo, hi) == |times|
  {
    if times != [] {
      CountAll(times[..|times| - 1], lo, hi);
    }
  }

  lemma {:induction false} CountAppend(a: seq<nat>, b: seq<nat>, lo: nat, hi: nat)
    ensures CountWithin(a + b, lo, hi) == CountWithin(a, lo, hi) + CountWithin(b, lo, hi)
  {
    if b == [] {
      assert a + b == a;
    } else {
      assert (a + b)[..|a + b| - 1] == a + b[..|b| - 1];
      CountAppend(a, b[..|b| - 1], lo, hi);
    }
  }

  lemma {:induction false} CountNone(times: seq<nat>, lo: nat, hi: nat)
    requires forall i | 0 <= i < |times| :: times[i] < lo
    ensures CountWithin(times, lo, hi) == 0
  {
    if times != [] {
      CountNone(times[..|times| - 1], lo, hi);
    }
  }

  lemma {:induction false} PruneLeavesRecent(restarts: seq<nat>, now: nat, window: nat)
    requires Ascending(restarts)
    ensures forall i | 0 <= i < |Prune(restarts, now, window)| ::
              SaturatingSub(now, Prune(restarts, now, window)[i]) <= window
  {
    if restarts != [] && SaturatingSub(now, restarts[0]) > window {
      PruneLeavesRecent(restarts[1..], now, window);
    }
  }

  lemma SplitAutos(autos: seq<nat>, kept: seq<nat>)
    requires |kept| <= |autos| && autos[|autos| - |kept|..] == kept
    ensures autos == autos[..|autos| - |kept|] + kept
  {
  }

  /** What pruning keeps is what falls into the window. */
  lemma PruneKeepsRecent(cfg: Config, restarts: seq<nat>, autos: seq<nat>, before: nat, now: nat)
    requires LimiterSound(cfg, restarts, autos, before) && before <= now
    ensures |Prune(restarts, now, cfg.window)| == Recent(autos, now, cfg.window)
  {
    var kept, lo := Prune(restarts, now, cfg.window), SaturatingSub(now, cfg.window);
    PruneEffect(cfg, restarts, autos, before, now);
    DequeAscends(cfg, restarts, autos, before);
    PruneLeavesRecent(restarts, now, cfg.window);
    var old' := autos[..|autos| - |kept|];
    SplitAutos(autos, kept);
    KeptInWindow(cfg, kept, autos, now);
    CountAppend(old', kept, lo, now);
    CountAll(kept, lo, now);
    CountNone(old', lo, now);
  }

  lemma DequeAscends(cfg: Config, restarts: seq<nat>, autos: seq<nat>, now: nat)
    requires LimiterSound(cfg, restarts, autos, now)
    ensures Ascending(restarts)
  {
    var k := |autos| - |restarts|;
    assert forall i | 0 <= i < |restarts| :: restarts[i] == autos[k + i];
  }

  lemma KeptInWindow(cfg: Config, kept: seq<nat>, autos: seq<nat>, now: nat)
    requires LimiterSound(cfg, kept, autos, now)
    requires forall i | 0 <= i < |kept| :: SaturatingSub(now, kept[i]) <= cfg.window
    ensures forall i | 0 <= i < |kept| :: SaturatingSub(now, cfg.window) <= kept[i] <= now
    ensures forall i | 0 <= i < |autos| - |kept| :: autos[i] < SaturatingSub(now, cfg.window)
  {
    var k := |autos| - |kept|;
    assert forall i | 0 <= i < |kept| :: kept[i] == autos[k + i];
  }

  // ---------- how an exit and a failed start are answered ----------

  lemma ExitStage(cfg: Config, s: Stage, i: Inputs, before: nat)
    requires LimiterSound(cfg, s.l.restarts, s.h.autos, before) && before <= i.atExit
    requires s.l.process.Some? && i.poll.Gone?
    ensures var r := CheckExit(cfg, s, i);
            && r.l.process.None? && r.rt.pid.None? && r.rt.startedAt.None? && r.h.attempts == s.h.attempts
            && if !(s.l.desired && cfg.autoRestart) then
                 r.h.autos == s.h.autos && r.l.desired == s.l.desired && r.l.nextStart == s.l.nextStart
                 && r.rt.state == Stopped
               else if Recent(s.h.autos, i.atExit, cfg.window) < cfg.maxRestarts then
                 r.h.autos == s.h.autos + [i.atExit] && r.l.desired
                 && r.l.nextStart == Some(i.atExit + cfg.delay) && r.rt.state == Restarting
               else
                 r.h.autos == s.h.autos && !r.l.desired && r.rt.state == Crashed
  {
    PruneKeepsRecent(cfg, s.l.restarts, s.h.autos, before, i.atExit);
  }

  lemma FailureStage(cfg: Config, s: Stage, now: nat, before: nat)
    requires LimiterSound(cfg, s.l.restarts, s.h.autos, before) && before <= now
    ensures var r := FailStart(cfg, s, now);
            if cfg.autoRestart && Recent(s.h.autos, now, cfg.window) < cfg.maxRestarts then
              r.h.autos == s.h.autos + [now] && r.l.desired == s.l.desired
              && r.l.nextStart == Some(now + cfg.delay) && r.rt.state == Restarting
            else
              r.h.autos == s.h.autos && !r.l.desired && r.l.nextStart == s.l.nextStart && r.rt.state == Crashed
  {
    PruneKeepsRecent(cfg, s.l.restarts, s.h.autos, before, now);
  }

  predicate Unasked(i: Inputs) {
    i.control.Tick? || i.control.Sample?
  }

  /** The stage in which an iteration checks for an exit. */
  function Received(s: State, i: Inputs): Stage {
    ReceiveControl(Stage(s.l, s.rt, s.h, []), i)
  }

  lemma ReceivedIsSound(cfg: Config, states: seq<State>, inputs: seq<Inputs>, n: nat)
    requires IsRun(cfg, states, inputs) && n < |inputs|
    ensures var r := Received(states[n], inputs[n]);
            LimiterSound(cfg, r.l.restarts, r.h.autos, inputs[n].atControl)
  {
    RunKeeps(cfg, states, inputs, n);
    ReceiveKeepsLimiter(cfg, Stage(states[n].l, states[n].rt, states[n].h, []), inputs[n], states[n].clock);
  }

  /** What is received while a child is held and not stopped leaves it, the limiter and the wish alone. */
  lemma HeldIsReceived(s: State, i: Inputs)
    requires s.l.process.Some? && s.l.desired && (Unasked(i) || i.control.Start?)
    ensures var r := Received(s, i);
            r.l.process.Some? && r.l.desired && r.h.autos == s.h.autos && r.h.attempts == s.h.attempts
  {
  }

  /** In every run, an iteration that finds a child gone which is to be restarted.  If fewer than the allowed number
      of restarts fall into the window, a restart is recorded and scheduled after the delay, and attempted at once
      only if the delay is over by then; otherwise the tool is given up.  A Start that arrived before the exit was
      found changes nothing in this. */
  lemma ExitIsAnsweredExactly(cfg: Config, states: seq<State>, inputs: seq<Inputs>, n: nat)
    requires IsRun(cfg, states, inputs) && n < |inputs| && (Unasked(inputs[n]) || inputs[n].control.Start?)
    requires states[n].l.process.Some? && inputs[n].poll.Gone? && cfg.autoRestart
    ensures var s, s', now := states[n], states[n + 1], inputs[n].atExit;
            if CountWithin(s.h.autos, SaturatingSub(now, cfg.window), now) >= cfg.maxRestarts then
              && s'.h.autos == s.h.autos && s'.h.attempts == s.h.attempts
              && s'.rt.state == Crashed && !s'.l.desired && s'.l.process.None?
            else if inputs[n].atCheck < now + cfg.delay then
              && s'.h.autos == s.h.autos + [now] && s'.h.attempts == s.h.attempts
              && s'.rt.state == Restarting && s'.rt.pid.None? && s'.l.process.None?
              && s'.l.desired && s'.l.nextStart == Some(now + cfg.delay)
            else
              s.h.autos + [now] <= s'.h.autos && s'.h.attempts == s.h.attempts + 1
  {
    var s, i := states[n], inputs[n];
    IterationsSettle(cfg, states, inputs, n);
    ReceivedIsSound(cfg, states, inputs, n);
    HeldIsReceived(s, i);
    ExitStage(cfg, Received(s, i), i, i.atControl);
    AutosGrow(cfg, CheckExit(cfg, Received(s, i), i), i);
  }

  /** Without automatic restart the tool is shown as stopped, unless an unused deadline starts it again. */
  lemma ExitWithoutRestart(cfg: Config, states: seq<State>, inputs: seq<Inputs>, n: nat)
    requires IsRun(cfg, states, inputs) && n < |inputs| && Unasked(inputs[n])
    requires states[n].l.process.Some? && inputs[n].poll.Gone? && !cfg.autoRestart
    ensures states[n + 1].h.attempts == states[n].h.attempts ==>
              states[n + 1].rt.state == Stopped && states[n + 1].rt.pid.None? && states[n + 1].l.desired
  {
    RunKeeps(cfg, states, inputs, n);
    var s, i := states[n], inputs[n];
    var stage := Stage(s.l, s.rt, s.h, []);
    assert ReceiveControl(stage, i) == stage;
    ExitStage(cfg, stage, i, s.clock);
    AutosGrow(cfg, CheckExit(cfg, stage, i), i);
  }

  lemma AutosGrow(cfg: Config, s: Stage, i: Inputs)
    ensures s.h.autos <= TryStart(cfg, s, i).h.autos
    ensures if Due(s.l, i.atCheck) then TryStart(cfg, s, i).h.attempts == s.h.attempts + 1 else TryStart(cfg, s, i) == s
  {
  }

  predicate StartFails(i: Inputs) {
    i.start.NotSpawned? || i.start.AttachFailed?
  }

  /** The attempt that fails leaves limiter and wish as they were, and no deadline. */
  function Attempt(s: Stage, i: Inputs): Stage {
    if i.start.AttachFailed? then Discard(BeginStart(s), i.start.fate) else BeginStart(s)
  }

  lemma AttemptEffect(s: Stage, i: Inputs)
    ensures var r := Attempt(s, i);
            && r.l.restarts == s.l.restarts && r.h.autos == s.h.autos
            && r.l.desired == s.l.desired && r.l.nextStart.None?
  {
  }

  lemma FailedStart(cfg: Config, s: Stage, i: Inputs)
    requires Due(s.l, i.atCheck) && StartFails(i)
    ensures TryStart(cfg, s, i) == FailStart(cfg, Attempt(s, i), i.atFailure)
  {
  }

  lemma FailedStartStage(cfg: Config, s: Stage, i: Inputs, before: nat)
    requires LimiterSound(cfg, s.l.restarts, s.h.autos, before) && before <= i.atFailure
    requires Due(s.l, i.atCheck) && StartFails(i)
    ensures var r := TryStart(cfg, s, i);
            if cfg.autoRestart && Recent(s.h.autos, i.atFailure, cfg.window) < cfg.maxRestarts then
              r.h.autos == s.h.autos + [i.atFailure] && r.rt.state == Restarting
              && r.l.nextStart == Some(i.atFailure + cfg.delay)
            else
              r.h.autos == s.h.autos && r.rt.state == Crashed && !r.l.desired && r.l.nextStart.None?
  {
    FailedStart(cfg, s, i);
    AttemptEffect(s, i);
    FailureStage(cfg, Attempt(s, i), i.atFailure, before);
  }

  lemma StartedStage(cfg: Config, s: Stage, i: Inputs)
    requires Due(s.l, i.atCheck) && !StartFails(i)
    ensures var r := TryStart(cfg, s, i);
            && r.l.process.Some? && r.l.process.value.pid == i.start.pid
            && r.rt.state == Running && r.rt.pid == Some(i.start.pid) && r.rt.startedAt == Some(i.start.at)
  {
  }

  lemma AttemptNeedsDue(cfg: Config, s: State, i: Inputs)
    requires s.l.process.None? || i.control.Restart?
    requires Next(cfg, s, i).h.attempts > s.h.attempts
    ensures !i.control.Shutdown? && CheckExit(cfg, Received(s, i), i) == Received(s, i)
    ensures Due(Received(s, i).l, i.atCheck)
    ensures Received(s, i).h.autos == if i.control.Start? then [] else s.h.autos
  {
  }

  /** In every run, an attempt to start a tool that had no child before, or whose child a Restart has just stopped.
      A started child is shown with its pid and its time.  A failure is answered by another restart exactly when
      automatic restart is on and fewer than the allowed number fall into the window; a Start has emptied it. */
  lemma StartIsAnsweredExactly(cfg: Config, states: seq<State>, inputs: seq<Inputs>, n: nat)
    requires IsRun(cfg, states, inputs) && n < |inputs|
    requires states[n].l.process.None? || inputs[n].control.Restart?
    requires states[n + 1].h.attempts > states[n].h.attempts
    ensures var s, s', i := states[n], states[n + 1], inputs[n];
            if StartFails(i) then
              var autos := if i.control.Start? then [] else s.h.autos;
              var count := CountWithin(autos, SaturatingSub(i.atFailure, cfg.window), i.atFailure);
              if cfg.autoRestart && count < cfg.maxRestarts
              then s'.h.autos == autos + [i.atFailure] && s'.rt.state == Restarting
                   && s'.l.nextStart == Some(i.atFailure + cfg.delay)
              else s'.h.autos == autos && s'.rt.state == Crashed && !s'.l.desired
            else
              && s'.rt.state == Running && s'.rt.pid == Some(i.start.pid) && s'.rt.startedAt == Some(i.start.at)
              && s'.l.process.Some? && s'.l.process.value.pid == i.start.pid
  {
    var s, i := states[n], inputs[n];
    ReceivedIsSound(cfg, states, inputs, n);
    AttemptNeedsDue(cfg, s, i);
    if StartFails(i) {
      FailedStartStage(cfg, Received(s, i), i, i.atControl);
    } else {
      StartedStage(cfg, Received(s, i), i);
    }
  }

  // ---------- the reset and the counter ----------

  /** A Start of a tool that is down. */
  predicate Resets(l: Locals, i: Inputs) {
    i.control.Start? && l.process.None?
  }

  lemma ReceiveCounts(s: Stage, i: Inputs)
    ensures var r := ReceiveControl(s, i);
            && r.h.autos == (if Resets(s.l, i) then [] else s.h.autos)
            && r.rt.restartCount == (if Resets(s.l, i) then 0 else s.rt.restartCount)
                                    + (if i.control.Restart? && s.l.process.Some? then 1 else 0)
  {
  }

  lemma ExitCounts(cfg: Config, s: Stage, i: Inputs)
    ensures var r := CheckExit(cfg, s, i);
            s.h.autos <= r.h.autos && r.rt.restartCount - s.rt.restartCount == |r.h.autos| - |s.h.autos|
  {
  }

  lemma StartCounts(cfg: Config, s: Stage, i: Inputs)
    ensures var r := TryStart(cfg, s, i);
            s.h.autos <= r.h.autos && r.rt.restartCount - s.rt.restartCount == |r.h.autos| - |s.h.autos|
  {
  }

  /** The limiter is reset by a Start of a tool that is down and by nothing else, and the counter shown goes
      up by one for a Restart of a live child and for every automatic restart. */
  lemma LimiterResetsExactly(cfg: Config, states: seq<State>, inputs: seq<Inputs>, n: nat)
    requires IsRun(cfg, states, inputs) && n < |inputs|
    ensures var s, s', i := states[n], states[n + 1], inputs[n];
            var reset := i.control.Start? && s.l.process.None?;
            var from := if reset then [] else s.h.autos;
            && from <= s'.h.autos
            && s'.rt.restartCount == (if reset then 0 else s.rt.restartCount)
                 + (if i.control.Restart? && s.l.process.Some? then 1 else 0) + |s'.h.autos| - |from|
  {
    var s, i := states[n], inputs[n];
    var received := ReceiveControl(Stage(s.l, s.rt, s.h, []), i);
    ReceiveCounts(Stage(s.l, s.rt, s.h, []), i);
    if !i.control.Shutdown? {
      ExitCounts(cfg, received, i);
      StartCounts(cfg, CheckExit(cfg, received, i), i);
    }
  }

  // ---------- where a child goes ----------

  /** How an iteration lets go of the child it began with: stopped on a message, or found gone. */
  predicate LetsGo(i: Inputs) {
    i.control.Stop? || i.control.Restart? || i.control.Shutdown? || i.poll.Gone?
  }

  predicate SeenToExit(i: Inputs) {
    if i.control.Stop? || i.control.Restart? || i.control.Shutdown? then i.stopFate.ObservedExit? else true
  }

  lemma HistoryGrows(cfg: Config, s: Stage, i: Inputs)
    ensures s.h.exited <= TryStart(cfg, s, i).h.exited && s.h.reapers <= TryStart(cfg, s, i).h.reapers
    ensures s.h.exited <= CheckExit(cfg, s, i).h.exited && s.h.reapers <= CheckExit(cfg, s, i).h.reapers
  {
  }

  lemma LetGo(cfg: Config, s: Stage, i: Inputs)
    requires s.l.process.Some? && LetsGo(i)
    ensures var r, child := ReceiveControl(s, i), s.l.process.value.serial;
            var checked := if i.control.Shutdown? then r else CheckExit(cfg, r, i);
            child in (if SeenToExit(i) then checked.h.exited else checked.h.reapers)
  {
  }

  /** In every run: a child that an iteration lets go of counts as seen to exit exactly when stopping it saw the
      exit, or when it was found gone; it counts as left to a reaper exactly when stopping it did not. */
  lemma ReleaseIsCountedExactly(cfg: Config, states: seq<State>, inputs: seq<Inputs>, n: nat)
    requires IsRun(cfg, states, inputs) && n < |inputs| && states[n].l.process.Some? && LetsGo(inputs[n])
    ensures var child, h := states[n].l.process.value.serial, states[n + 1].h;
            && (child in h.exited <==> SeenToExit(inputs[n])) && (child in h.reapers <==> !SeenToExit(inputs[n]))
  {
    var s, i := states[n], inputs[n];
    RunKeeps(cfg, states, inputs, n + 1);
    LetGo(cfg, Stage(s.l, s.rt, s.h, []), i);
    if !i.control.Shutdown? {
      HistoryGrows(cfg, CheckExit(cfg, Received(s, i), i), i);
    }
  }
}
