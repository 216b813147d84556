/** What the worker keeps over every run, whatever the operating system answers. */
module WorkerSafety {
  import opened Basics
  import opened Worker

  // ---------- invariants ----------

  /** The worker's locals and the shared record agree whenever an iteration is over. */
  ghost predicate Settled(l: Locals, rt: Runtime) {
    && (l.process.Some? <==> rt.state.Running?)
    && (l.process.Some? <==> rt.startedAt.Some?)
    && rt.pid == (if l.process.Some? then Some(l.process.value.pid) else None)
    && (l.process.Some? ==> l.desired)
    && (rt.state.Crashed? ==> !l.desired)
    && (rt.state.Restarting? ==> l.process.None? && l.desired && l.nextStart.Some?)
    && !rt.state.Starting? && !rt.state.Stopping?
  }

  /** Within an iteration a crashed tool may already be wanted again, if it is about to be started. */
  ghost predicate Agreed(l: Locals, rt: Runtime, now: nat) {
    Settled(l, rt.(state := if rt.state.Crashed? && Due(l, now) then Stopped else rt.state))
  }

  ghost predicate Ascending(s: seq<nat>) {
    forall i, j | 0 <= i < j < |s| :: s[i] <= s[j]
  }

  /** More than `n` entries never fit into a closed interval of length `window`. */
  ghost predicate Spaced(s: seq<nat>, n: nat, window: nat) {
    forall i | 0 <= i && i + n < |s| :: s[i + n] - s[i] > window
  }

  /** The deque holds the recent end of the automatic restarts; what it has lost is out of the window. */
  ghost predicate LimiterSound(cfg: Config, restarts: seq<nat>, autos: seq<nat>, now: nat) {
    && |restarts| <= |autos| && autos[|autos| - |restarts|..] == restarts
    && (forall i | 0 <= i < |autos| - |restarts| :: now - autos[i] > cfg.window)
    && (forall i | 0 <= i < |autos| :: autos[i] <= now)
    && Ascending(autos) && Spaced(autos, cfg.maxRestarts, cfg.window)
    && |restarts| <= cfg.maxRestarts
  }

  ghost predicate StartsCovered(cfg: Config, l: Locals, h: History) {
    h.attempts + (if l.nextStart.Some? then 1 else 0)
      <= (if cfg.autoStart then 1 else 0) + h.startControls + h.restartControls + h.scheduled
  }

  ghost predicate Counted(rt: Runtime, h: History) {
    rt.restartCount == |h.autos| + h.liveRestarts
  }

  /** Every child spawned so far is held, has been seen to exit, or was given to a reaper; only one of these. */
  ghost predicate ChildrenAccounted(l: Locals, h: History) {
    && (forall s :: s in h.exited ==> s < l.spawned && s !in h.reapers)
    && (forall s :: s in h.reapers ==> s < l.spawned && s !in h.exited)
    && (l.process.Some? ==> l.process.value.serial < l.spawned
                            && l.process.value.serial !in h.exited && l.process.value.serial !in h.reapers)
    && (forall s: nat | s < l.spawned ::
        s in h.exited || s in h.reapers || (l.process.Some? && l.process.value.serial == s))
  }

  // ---------- the limiter ----------

  lemma {:induction false} PruneEffect(cfg: Config, restarts: seq<nat>, autos: seq<nat>, before: nat, now: nat)
    requires LimiterSound(cfg, restarts, autos, before) && before <= now
    ensures LimiterSound(cfg, Prune(restarts, now, cfg.window), autos, now)
  {
    if restarts != [] && SaturatingSub(now, restarts[0]) > cfg.window {
      assert LimiterSound(cfg, restarts[1..], autos, now);
      PruneEffect(cfg, restarts[1..], autos, now, now);
    }
  }

  lemma PushEffect(cfg: Config, restarts: seq<nat>, autos: seq<nat>, now: nat)
    requires LimiterSound(cfg, restarts, autos, now) && |restarts| < cfg.maxRestarts
    ensures LimiterSound(cfg, restarts + [now], autos + [now], now)
  {
    var all := autos + [now];
    assert all[|all| - |restarts| - 1..] == restarts + [now];
  }

  lemma LimiterAges(cfg: Config, restarts: seq<nat>, autos: seq<nat>, before: nat, now: nat)
    requires LimiterSound(cfg, restarts, autos, before) && before <= now
    ensures LimiterSound(cfg, restarts, autos, now)
  {
  }

  // ---------- one iteration ----------

  lemma ReceiveKeepsAgreement(s: Stage, i: Inputs)
    requires Settled(s.l, s.rt)
    ensures Agreed(ReceiveControl(s, i).l, ReceiveControl(s, i).rt, i.atControl)
    ensures i.control.Shutdown? ==> Settled(ReceiveControl(s, i).l, ReceiveControl(s, i).rt)
  {
  }

  lemma CheckExitKeepsAgreement(cfg: Config, s: Stage, i: Inputs, before: nat)
    requires Agreed(s.l, s.rt, before) && before <= i.atExit
    ensures Agreed(CheckExit(cfg, s, i).l, CheckExit(cfg, s, i).rt, i.atExit)
  {
  }

  lemma TryStartSettles(cfg: Config, s: Stage, i: Inputs, before: nat)
    requires Agreed(s.l, s.rt, before) && before <= i.atCheck
    ensures Settled(TryStart(cfg, s, i).l, TryStart(cfg, s, i).rt)
  {
  }

  lemma ReceiveKeepsLimiter(cfg: Config, s: Stage, i: Inputs, before: nat)
    requires LimiterSound(cfg, s.l.restarts, s.h.autos, before) && before <= i.atControl
    ensures LimiterSound(cfg, ReceiveControl(s, i).l.restarts, ReceiveControl(s, i).h.autos, i.atControl)
  {
    LimiterAges(cfg, s.l.restarts, s.h.autos, before, i.atControl);
  }

  /** Pruning and, if there is room, recording another automatic restart. */
  lemma LimitEffect(cfg: Config, restarts: seq<nat>, autos: seq<nat>, before: nat, now: nat)
    requires LimiterSound(cfg, restarts, autos, before) && before <= now
    ensures var kept := Prune(restarts, now, cfg.window);
            && LimiterSound(cfg, kept, autos, now)
            && (|kept| < cfg.maxRestarts ==> LimiterSound(cfg, kept + [now], autos + [now], now))
  {
    PruneEffect(cfg, restarts, autos, before, now);
    if |Prune(restarts, now, cfg.window)| < cfg.maxRestarts {
      PushEffect(cfg, Prune(restarts, now, cfg.window), autos, now);
    }
  }

  lemma CheckExitKeepsLimiter(cfg: Config, s: Stage, i: Inputs, before: nat)
    requires LimiterSound(cfg, s.l.restarts, s.h.autos, before) && before <= i.atExit
    ensures LimiterSound(cfg, CheckExit(cfg, s, i).l.restarts, CheckExit(cfg, s, i).h.autos, i.atExit)
  {
    LimiterAges(cfg, s.l.restarts, s.h.autos, before, i.atExit);
    LimitEffect(cfg, s.l.restarts, s.h.autos, before, i.atExit);
  }

  lemma FailStartKeepsLimiter(cfg: Config, s: Stage, before: nat, now: nat)
    requires LimiterSound(cfg, s.l.restarts, s.h.autos, before) && before <= now
    ensures LimiterSound(cfg, FailStart(cfg, s, now).l.restarts, FailStart(cfg, s, now).h.autos, now)
  {
    LimiterAges(cfg, s.l.restarts, s.h.autos, before, now);
    LimitEffect(cfg, s.l.restarts, s.h.autos, before, now);
  }

  lemma TryStartKeepsLimiter(cfg: Config, s: Stage, i: Inputs, before: nat)
    requires LimiterSound(cfg, s.l.restarts, s.h.autos, before) && before <= i.atCheck <= i.atFailure
    ensures LimiterSound(cfg, TryStart(cfg, s, i).l.restarts, TryStart(cfg, s, i).h.autos, i.atFailure)
  {
    LimiterAges(cfg, s.l.restarts, s.h.autos, before, i.atFailure);
    if Due(s.l, i.atCheck) {
      match i.start
      case Started(_, _) =>
      case NotSpawned => FailStartKeepsLimiter(cfg, BeginStart(s), before, i.atFailure);
      case AttachFailed(fate) => FailStartKeepsLimiter(cfg, Discard(BeginStart(s), fate), before, i.atFailure);
    }
  }

  ghost predicate CountsSound(cfg: Config, s: Stage) {
    StartsCovered(cfg, s.l, s.h) && Counted(s.rt, s.h)
  }

  lemma ReceiveKeepsCounts(cfg: Config, s: Stage, i: Inputs)
    requires CountsSound(cfg, s)
    ensures CountsSound(cfg, ReceiveControl(s, i))
  {
  }

  lemma CheckExitKeepsCounts(cfg: Config, s: Stage, i: Inputs)
    requires CountsSound(cfg, s)
    ensures CountsSound(cfg, CheckExit(cfg, s, i))
  {
  }

  lemma TryStartKeepsCounts(cfg: Config, s: Stage, i: Inputs)
    requires CountsSound(cfg, s)
    ensures CountsSound(cfg, TryStart(cfg, s, i))
  {
    if Due(s.l, i.atCheck) {
      assert CountsSound(cfg, BeginStart(s)) && BeginStart(s).l.nextStart == None;
      if i.start.AttachFailed? {
        assert CountsSound(cfg, Discard(BeginStart(s), i.start.fate));
      }
    }
  }

  ghost predicate ChildrenSound(s: Stage) {
    ChildrenAccounted(s.l, s.h)
  }

  lemma ReceiveKeepsChildren(s: Stage, i: Inputs)
    requires ChildrenSound(s)
    ensures ChildrenSound(ReceiveControl(s, i))
  {
  }

  lemma CheckExitKeepsChildren(cfg: Config, s: Stage, i: Inputs)
    requires ChildrenSound(s)
    ensures ChildrenSound(CheckExit(cfg, s, i))
  {
  }

  lemma FailStartKeepsChildren(cfg: Config, s: Stage, now: nat)
    requires ChildrenSound(s)
    ensures ChildrenSound(FailStart(cfg, s, now))
  {
  }

  lemma TryStartKeepsChildren(cfg: Config, s: Stage, i: Inputs)
    requires ChildrenSound(s)
    ensures ChildrenSound(TryStart(cfg, s, i))
  {
    if Due(s.l, i.atCheck) {
      match i.start
      case Started(_, _) =>
      case NotSpawned => FailStartKeepsChildren(cfg, BeginStart(s), i.atFailure);
      case AttachFailed(fate) => FailStartKeepsChildren(cfg, Discard(BeginStart(s), fate), i.atFailure);
    }
  }

  lemma IterationKeepsAccounts(cfg: Config, l: Locals, rt: Runtime, h: History, i: Inputs)
    requires StartsCovered(cfg, l, h) && Counted(rt, h) && ChildrenAccounted(l, h)
    ensures var r := Iterate(cfg, l, rt, h, i);
            CountsSound(cfg, r) && ChildrenSound(r)
  {
    var s := Stage(l, rt, h, []);
    ReceiveKeepsCounts(cfg, s, i);
    ReceiveKeepsChildren(s, i);
    var received := ReceiveControl(s, i);
    CheckExitKeepsCounts(cfg, received, i);
    CheckExitKeepsChildren(cfg, received, i);
    TryStartKeepsCounts(cfg, CheckExit(cfg, received, i), i);
    TryStartKeepsChildren(cfg, CheckExit(cfg, received, i), i);
  }

  // ---------- every run ----------

  ghost predicate Inv(cfg: Config, s: State) {
    && Settled(s.l, s.rt)
    && LimiterSound(cfg, s.l.restarts, s.h.autos, s.clock)
    && StartsCovered(cfg, s.l, s.h) && Counted(s.rt, s.h) && ChildrenAccounted(s.l, s.h)
  }

  lemma IterationKeepsAgreement(cfg: Config, s: State, i: Inputs)
    requires Settled(s.l, s.rt) && Timely(s, i)
    ensures Settled(Next(cfg, s, i).l, Next(cfg, s, i).rt)
  {
    var received := ReceiveControl(Stage(s.l, s.rt, s.h, []), i);
    ReceiveKeepsAgreement(Stage(s.l, s.rt, s.h, []), i);
    CheckExitKeepsAgreement(cfg, received, i, i.atControl);
    TryStartSettles(cfg, CheckExit(cfg, received, i), i, i.atExit);
  }

  lemma IterationKeepsLimiter(cfg: Config, s: State, i: Inputs)
    requires LimiterSound(cfg, s.l.restarts, s.h.autos, s.clock) && Timely(s, i)
    ensures LimiterSound(cfg, Next(cfg, s, i).l.restarts, Next(cfg, s, i).h.autos, i.atFailure)
  {
    var received := ReceiveControl(Stage(s.l, s.rt, s.h, []), i);
    ReceiveKeepsLimiter(cfg, Stage(s.l, s.rt, s.h, []), i, s.clock);
    LimiterAges(cfg, received.l.restarts, received.h.autos, i.atControl, i.atFailure);
    CheckExitKeepsLimiter(cfg, received, i, i.atControl);
    TryStartKeepsLimiter(cfg, CheckExit(cfg, received, i), i, i.atExit);
  }

  lemma NextKeeps(cfg: Config, s: State, i: Inputs)
    requires Inv(cfg, s) && Timely(s, i)
    ensures Inv(cfg, Next(cfg, s, i))
  {
    IterationKeepsAgreement(cfg, s, i);
    IterationKeepsLimiter(cfg, s, i);
    IterationKeepsAccounts(cfg, s.l, s.rt, s.h, i);
  }

  lemma {:induction false} RunKeeps(cfg: Config, states: seq<State>, inputs: seq<Inputs>, n: nat)
    requires IsRun(cfg, states, inputs) && n < |states|
    ensures Inv(cfg, states[n])
  {
    if n > 0 {
      RunKeeps(cfg, states, inputs, n - 1);
      NextKeeps(cfg, states[n - 1], inputs[n - 1]);
    }
  }

  /** After every iteration: a child is held iff a pid is shown iff a start time is shown iff the state
      is Running; a held child is wanted; a crashed tool is not; a restarting tool is wanted, has no
      child and has a deadline; and the transient states are gone. */
  lemma IterationsSettle(cfg: Config, states: seq<State>, inputs: seq<Inputs>, n: nat)
    requires IsRun(cfg, states, inputs) && n < |states|
    ensures var l, rt := states[n].l, states[n].rt;
            && (l.process.Some? <==> rt.pid.Some?) && (l.process.Some? <==> rt.startedAt.Some?)
            && (l.process.Some? <==> rt.state.Running?)
            && (l.process.Some? ==> rt.pid == Some(l.process.value.pid) && l.desired)
            && (rt.state.Crashed? ==> !l.desired)
            && (rt.state.Restarting? ==> l.process.None? && l.desired && l.nextStart.Some?)
            && rt.state in {Stopped, Running, Restarting, Crashed}
  {
    RunKeeps(cfg, states, inputs, n);
  }

  // ---------- the rate limit ----------

  /** How many of the times lie in the closed interval from `lo` to `hi`. */
  function CountWithin(times: seq<nat>, lo: nat, hi: nat): nat {
    if times == [] then 0
    else CountWithin(times[..|times| - 1], lo, hi) + if lo <= Last(times) <= hi then 1 else 0
  }

  lemma {:induction false} CountAfter(times: seq<nat>, lo: nat, hi: nat, k: nat)
    requires k <= |times| && forall i | 0 <= i < k :: times[i] < lo
    ensures CountWithin(times, lo, hi) <= |times| - k
  {
    if k < |times| {
      CountAfter(times[..|times| - 1], lo, hi, k);
    } else if times != [] {
      CountAfter(times[..|times| - 1], lo, hi, k - 1);
    }
  }

  lemma {:induction false} SpacedCount(times: seq<nat>, n: nat, window: nat, lo: nat)
    requires Ascending(times) && Spaced(times, n, window)
    ensures CountWithin(times, lo, lo + window) <= n
  {
    if times != [] {
      var init := times[..|times| - 1];
      if lo <= Last(times) <= lo + window {
        if n < |times| {
          assert times[|times| - 1 - n + n] - times[|times| - 1 - n] > window;
          CountAfter(times, lo, lo + window, |times| - n);
        } else {
          CountAfter(times, lo, lo + window, 0);
        }
      } else {
        assert Ascending(init) && Spaced(init, n, window);
        SpacedCount(init, n, window, lo);
      }
    }
  }

  /** Between two resets of the limiter, no closed interval as long as the window holds more automatic
      restarts than allowed, whether an exit or a failed start scheduled them. */
  lemma RestartRateIsLimited(cfg: Config, states: seq<State>, inputs: seq<Inputs>, n: nat, from: nat)
    requires IsRun(cfg, states, inputs) && n < |states|
    ensures CountWithin(states[n].h.autos, from, from + cfg.window) <= cfg.maxRestarts
    ensures |states[n].l.restarts| <= cfg.maxRestarts && Ascending(states[n].l.restarts)
  {
    RunKeeps(cfg, states, inputs, n);
    var s := states[n];
    SpacedCount(s.h.autos, cfg.maxRestarts, cfg.window, from);
    var k := |s.h.autos| - |s.l.restarts|;
    assert forall i | 0 <= i < |s.l.restarts| :: s.l.restarts[i] == s.h.autos[k + i];
  }

  // ---------- conservation ----------

  /** Every start attempt is paid for by auto-start, a control message or a scheduled restart, and the
      shown restart count is what happened since the limiter was reset. */
  lemma StartsAreCovered(cfg: Config, states: seq<State>, inputs: seq<Inputs>, n: nat)
    requires IsRun(cfg, states, inputs) && n < |states|
    ensures var h := states[n].h;
            && h.attempts <= (if cfg.autoStart then 1 else 0) + h.startControls + h.restartControls + h.scheduled
            && states[n].rt.restartCount == |h.autos| + h.liveRestarts
  {
    RunKeeps(cfg, states, inputs, n);
  }

  ghost function Held(l: Locals): set<nat> {
    if l.process.Some? then {l.process.value.serial} else {}
  }

  /** No child is lost: each one spawned is held, was seen to exit, or went to a reaper, exactly one of these. */
  lemma NoChildIsLost(cfg: Config, states: seq<State>, inputs: seq<Inputs>, n: nat)
    requires IsRun(cfg, states, inputs) && n < |states|
    ensures var l, h := states[n].l, states[n].h;
            && Held(l) !! h.exited !! h.reapers
            && forall s: nat :: s < l.spawned <==> s in Held(l) + h.exited + h.reapers
    ensures states[n].ended ==> Held(states[n].l) == {}
  {
    RunKeeps(cfg, states, inputs, n);
    if n > 0 && inputs[n - 1].control.Shutdown? {
      assert Next(cfg, states[n - 1], inputs[n - 1]).l.process == None;
    }
  }

  // ---------- when nothing may start ----------

  predicate Asks(i: Inputs) {
    i.control.Start? || i.control.Restart?
  }

  lemma UnwantedStaysDown(cfg: Config, s: State, i: Inputs)
    requires Settled(s.l, s.rt) && !s.l.desired && Timely(s, i) && !Asks(i)
    ensures var s' := Next(cfg, s, i);
            !s'.l.desired && s'.l.process.None? && s'.h.attempts == s.h.attempts && s'.rt.state in {s.rt.state, Stopped}
  {
  }

  /** A crashed tool stays down until the next Start or Restart. */
  lemma {:induction false} CrashedStaysDown(cfg: Config, states: seq<State>, inputs: seq<Inputs>, n: nat, m: nat)
    requires IsRun(cfg, states, inputs) && n <= m < |states|
    requires states[n].rt.state.Crashed? && forall k | n <= k < m :: !Asks(inputs[k])
    ensures states[m].h.attempts == states[n].h.attempts && states[m].l.process.None? && !states[m].l.desired
    ensures states[m].rt.state in {Crashed, Stopped}
    decreases m
  {
    RunKeeps(cfg, states, inputs, n);
    if n < m {
      CrashedStaysDown(cfg, states, inputs, n, m - 1);
      RunKeeps(cfg, states, inputs, m - 1);
      UnwantedStaysDown(cfg, states[m - 1], inputs[m - 1]);
    }
  }
}
