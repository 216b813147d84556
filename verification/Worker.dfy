/**
 The worker thread of one tool: control messages, exit detection, the sliding-window restart limiter
 and the pending start deadline.

 An iteration of the loop takes its operating-system answers (control message, exit status, outcome
 of a start, clock readings) from an `Inputs` record.  What it does to the shared runtime record is
 a list of sections, one for every time it holds the lock.  Times are milliseconds.
 */
module Worker {
  import opened Basics

  datatype Memory = Idle | Pending | Bytes(bytes: nat) | Unavailable

  datatype Runtime = Runtime(state: ToolState, pid: Option<nat>, memory: Memory, restartCount: nat,
    startedAt: Option<nat>)

  datatype Config = Config(autoStart: bool, autoRestart: bool, delay: nat, maxRestarts: nat, window: nat)

  datatype Control = Start | Stop | Restart | Sample | Shutdown | Tick

  /** A child handle: handles are numbered in the order of spawning, pids are the system's. */
  datatype Child = Child(serial: nat, pid: nat)

  /** What became of a child the worker let go of. */
  datatype Fate = ObservedExit | Reaper

  datatype Poll = Alive | Gone | QueryFailed

  datatype StartResult = Started(pid: nat, at: nat) | NotSpawned | AttachFailed(fate: Fate)

  datatype Inputs = Inputs(
    control: Control,
    atControl: nat,
    stopFate: Fate,
    poll: Poll,
    atExit: nat,
    atCheck: nat,
    start: StartResult,
    atFailure: nat)

  /** One critical section of the worker on the runtime record. */
  datatype Section =
    | ClearCount
    | MarkRestarting(live: bool)
    | MarkStopping
    | ResetStopped
    | ChildGone(next: ToolState, counted: bool)
    | MarkStarting
    | MarkRunning(child: Child, at: nat)
    | StartFailed(next: ToolState, counted: bool)

  function Apply(rt: Runtime, s: Section): Runtime {
    match s
    case ClearCount => rt.(restartCount := 0)
    case MarkRestarting(live) => rt.(state := Restarting, restartCount := rt.restartCount + if live then 1 else 0)
    case MarkStopping => rt.(state := Stopping)
    case ResetStopped => rt.(state := Stopped, pid := None, memory := Idle, startedAt := None)
    case ChildGone(next, counted) =>
      Runtime(next, None, Idle, rt.restartCount + if counted then 1 else 0, None)
    case MarkStarting => rt.(state := Starting)
    case MarkRunning(child, at) => rt.(state := Running, pid := Some(child.pid), memory := Idle, startedAt := Some(at))
    case StartFailed(next, counted) => rt.(state := next, restartCount := rt.restartCount + if counted then 1 else 0)
  }

  /** The locals of `worker_loop`; `spawned` counts the children spawned so far. */
  datatype Locals = Locals(
    process: Option<Child>,
    desired: bool,
    nextStart: Option<nat>,
    restarts: seq<nat>,
    spawned: nat)

  /** What a run has done so far.  `autos` are the times of the automatic restarts scheduled since the
      limiter was last reset, `liveRestarts` the restarts of a live child since then. */
  datatype History = History(
    attempts: nat,
    startControls: nat,
    restartControls: nat,
    scheduled: nat,
    autos: seq<nat>,
    liveRestarts: nat,
    exited: set<nat>,
    reapers: set<nat>)

  /** A stage of an iteration; `sections` are the critical sections so far, oldest first. */
  datatype Stage = Stage(l: Locals, rt: Runtime, h: History, sections: seq<Section>)

  function Lock(s: Stage, section: Section): Stage {
    s.(rt := Apply(s.rt, section), sections := s.sections + [section])
  }

  /** Pops times from the front while they are older than the window. */
  function Prune(restarts: seq<nat>, now: nat, window: nat): seq<nat> {
    if restarts != [] && SaturatingSub(now, restarts[0]) > window then Prune(restarts[1..], now, window) else restarts
  }

  function Release(h: History, child: Child, fate: Fate): History {
    if fate.ObservedExit? then h.(exited := h.exited + {child.serial}) else h.(reapers := h.reapers + {child.serial})
  }

  /** `stop_process`, as far as the worker can tell. */
  function StopChild(s: Stage, fate: Fate): Stage {
    if s.l.process.None? then Lock(s, ResetStopped)
    else
      var s' := s.(l := s.l.(process := None), h := Release(s.h, s.l.process.value, fate));
      Lock(Lock(s', MarkStopping), ResetStopped)
  }

  /** The control message of an iteration (src/core/supervisor.rs:454-486). */
  function ReceiveControl(s: Stage, i: Inputs): Stage {
    match i.control
    case Start =>
      var s' := s.(l := s.l.(desired := true, nextStart := Some(i.atControl)),
                   h := s.h.(startControls := s.h.startControls + 1));
      if s.l.process.Some? then s'
      else Lock(s'.(l := s'.l.(restarts := []), h := s'.h.(autos := [], liveRestarts := 0)), ClearCount)
    case Stop => StopChild(s.(l := s.l.(desired := false, nextStart := None)), i.stopFate)
    case Restart =>
      var live := s.l.process.Some?;
      var s' := s.(l := s.l.(desired := true, nextStart := Some(i.atControl)),
                   h := s.h.(restartControls := s.h.restartControls + 1,
                             liveRestarts := s.h.liveRestarts + if live then 1 else 0));
      StopChild(Lock(s', MarkRestarting(live)), i.stopFate)
    case Shutdown => StopChild(s, i.stopFate)
    case Sample => s
    case Tick => s
  }

  function Schedule(h: History, now: nat): History {
    h.(scheduled := h.scheduled + 1, autos := h.autos + [now])
  }

  /** The check for an exited child (src/core/supervisor.rs:488-534). */
  function CheckExit(cfg: Config, s: Stage, i: Inputs): Stage {
    if s.l.process.None? || !i.poll.Gone? then s
    else
      var s' := s.(l := s.l.(process := None), h := Release(s.h, s.l.process.value, ObservedExit));
      if !(s.l.desired && cfg.autoRestart) then Lock(s', ChildGone(Stopped, false))
      else
        var kept := Prune(s.l.restarts, i.atExit, cfg.window);
        if |kept| >= cfg.maxRestarts then
          Lock(s'.(l := s'.l.(restarts := kept, desired := false)), ChildGone(Crashed, false))
        else
          Lock(s'.(l := s'.l.(restarts := kept + [i.atExit], nextStart := Some(i.atExit + cfg.delay)),
                   h := Schedule(s'.h, i.atExit)), ChildGone(Restarting, true))
  }

  predicate Due(l: Locals, now: nat) {
    l.process.None? && l.desired && l.nextStart.Some? && now >= l.nextStart.value
  }

  /** A start that did not produce a managed child. */
  function FailStart(cfg: Config, s: Stage, now: nat): Stage {
    var kept := Prune(s.l.restarts, now, cfg.window);
    if !cfg.autoRestart then Lock(s.(l := s.l.(desired := false)), StartFailed(Crashed, false))
    else if |kept| < cfg.maxRestarts then
      Lock(s.(l := s.l.(restarts := kept + [now], nextStart := Some(now + cfg.delay)), h := Schedule(s.h, now)),
           StartFailed(Restarting, true))
    else
      Lock(s.(l := s.l.(restarts := kept, desired := false)), StartFailed(Crashed, false))
  }

  function BeginStart(s: Stage): Stage {
    Lock(s.(l := s.l.(nextStart := None), h := s.h.(attempts := s.h.attempts + 1)), MarkStarting)
  }

  /** A child that was spawned but could not be put under a guard is killed and waited for. */
  function Discard(s: Stage, fate: Fate): Stage {
    s.(l := s.l.(spawned := s.l.spawned + 1), h := Release(s.h, Child(s.l.spawned, 0), fate))
  }

  function Adopt(s: Stage, pid: nat, at: nat): Stage {
    var child := Child(s.l.spawned, pid);
    Lock(s.(l := s.l.(process := Some(child), spawned := s.l.spawned + 1)), MarkRunning(child, at))
  }

  /** A due start (src/core/supervisor.rs:536-582). */
  function TryStart(cfg: Config, s: Stage, i: Inputs): Stage {
    if !Due(s.l, i.atCheck) then s
    else
      match i.start
      case Started(pid, at) => Adopt(BeginStart(s), pid, at)
      case NotSpawned => FailStart(cfg, BeginStart(s), i.atFailure)
      case AttachFailed(fate) => FailStart(cfg, Discard(BeginStart(s), fate), i.atFailure)
  }

  /** One iteration of `worker_loop`. */
  function Iterate(cfg: Config, l: Locals, rt: Runtime, h: History, i: Inputs): Stage {
    var received := ReceiveControl(Stage(l, rt, h, []), i);
    if i.control.Shutdown? then received else TryStart(cfg, CheckExit(cfg, received, i), i)
  }

  // ---------- runs ----------

  datatype State = State(l: Locals, rt: Runtime, h: History, clock: nat, ended: bool)

  function InitialState(cfg: Config, now: nat): State {
    State(Locals(None, cfg.autoStart, if cfg.autoStart then Some(now) else None, [], 0),
          Runtime(Stopped, None, Idle, 0, None),
          History(0, 0, 0, 0, [], 0, {}, {}), now, false)
  }

  /** The clock never runs backwards, within an iteration or from one to the next. */
  predicate Timely(s: State, i: Inputs) {
    !s.ended && s.clock <= i.atControl <= i.atExit <= i.atCheck <= i.atFailure
  }

  function Next(cfg: Config, s: State, i: Inputs): State {
    var r := Iterate(cfg, s.l, s.rt, s.h, i);
    State(r.l, r.rt, r.h, i.atFailure, i.control.Shutdown?)
  }

  ghost predicate IsRun(cfg: Config, states: seq<State>, inputs: seq<Inputs>) {
    && |states| == |inputs| + 1
    && states[0] == InitialState(cfg, states[0].clock)
    && forall n | 0 <= n < |inputs| :: Timely(states[n], inputs[n]) && states[n + 1] == Next(cfg, states[n], inputs[n])
  }

  // ---------- the program ----------

  /** `worker_loop` with its locals and the runtime record it shares. */
  class WorkerLoop {
    const cfg: Config
    var process: Option<Child>
    var desired: bool
    var nextStart: Option<nat>
    var restarts: seq<nat>
    var runtime: Runtime
    var spawned: nat
    ghost var history: History
    ghost var sections: seq<Section>

    ghost function TheStage(): Stage
      reads this
    {
      Stage(Locals(process, desired, nextStart, restarts, spawned), runtime, history, sections)
    }

    constructor (cfg: Config, now: nat)
      ensures this.cfg == cfg
      ensures TheStage() == Stage(InitialState(cfg, now).l, InitialState(cfg, now).rt, InitialState(cfg, now).h, [])
    {
      this.cfg := cfg;
      process, desired, restarts := None, cfg.autoStart, [];
      nextStart := if cfg.autoStart then Some(now) else None;
      runtime := Runtime(Stopped, None, Idle, 0, None);
      spawned, history, sections := 0, History(0, 0, 0, 0, [], 0, {}, {}), [];
    }

    /** Holds the lock for one section. */
    method Locked(section: Section)
      modifies this`runtime, this`sections
      ensures TheStage() == Lock(old(TheStage()), section)
    {
      runtime := Apply(runtime, section);
      sections := sections + [section];
    }

    method StopProcess(fate: Fate)
      modifies this
      ensures TheStage() == StopChild(old(TheStage()), fate)
    {
      if process.Some? {
        Locked(MarkStopping);
        history := Release(history, process.value, fate);
        process := None;
      }
      Locked(ResetStopped);
    }

    method DropOldRestarts(now: nat)
      modifies this`restarts
      ensures restarts == Prune(old(restarts), now, cfg.window)
    {
      while restarts != [] && SaturatingSub(now, restarts[0]) > cfg.window
        invariant Prune(restarts, now, cfg.window) == Prune(old(restarts), now, cfg.window)
        decreases |restarts|
      {
        restarts := restarts[1..];
      }
    }

    method Receive(i: Inputs)
      modifies this
      ensures TheStage() == ReceiveControl(old(TheStage()), i)
    {
      match i.control
      case Start =>
        desired, nextStart := true, Some(i.atControl);
        history := history.(startControls := history.startControls + 1);
        if process.None? {
          restarts := [];
          Locked(ClearCount);
          history := history.(autos := [], liveRestarts := 0);
        }
      case Stop =>
        desired, nextStart := false, None;
        StopProcess(i.stopFate);
      case Restart =>
        desired, nextStart := true, Some(i.atControl);
        var live := process.Some?;
        Locked(MarkRestarting(live));
        history := history.(restartControls := history.restartControls + 1,
                            liveRestarts := history.liveRestarts + if live then 1 else 0);
        StopProcess(i.stopFate);
      case Shutdown =>
        StopProcess(i.stopFate);
      case Sample =>
      case Tick =>
    }

    method PollChild(i: Inputs)
      modifies this
      ensures TheStage() == CheckExit(cfg, old(TheStage()), i)
    {
      if process.Some? && i.poll.Gone? {
        history := Release(history, process.value, ObservedExit);
        process := None;
        if desired && cfg.autoRestart {
          DropOldRestarts(i.atExit);
          if |restarts| >= cfg.maxRestarts {
            Locked(ChildGone(Crashed, false));
            desired := false;
          } else {
            restarts := restarts + [i.atExit];
            Locked(ChildGone(Restarting, true));
            nextStart := Some(i.atExit + cfg.delay);
            history := Schedule(history, i.atExit);
          }
        } else {
          Locked(ChildGone(Stopped, false));
        }
      }
    }

    method HandleFailedStart(now: nat)
      modifies this
      ensures TheStage() == FailStart(cfg, old(TheStage()), now)
    {
      if cfg.autoRestart {
        DropOldRestarts(now);
        if |restarts| < cfg.maxRestarts {
          restarts := restarts + [now];
          Locked(StartFailed(Restarting, true));
          nextStart := Some(now + cfg.delay);
          history := Schedule(history, now);
        } else {
          Locked(StartFailed(Crashed, false));
          desired := false;
        }
      } else {
        Locked(StartFailed(Crashed, false));
        desired := false;
      }
    }

    method StartIfDue(i: Inputs)
      modifies this
      ensures TheStage() == TryStart(cfg, old(TheStage()), i)
    {
      if process.None? && desired && nextStart.Some? && i.atCheck >= nextStart.value {
        nextStart := None;
        history := history.(attempts := history.attempts + 1);
        Locked(MarkStarting);
        match i.start
        case Started(pid, at) =>
          Locked(MarkRunning(Child(spawned, pid), at));
          process := Some(Child(spawned, pid));
          spawned := spawned + 1;
        case NotSpawned =>
          HandleFailedStart(i.atFailure);
        case AttachFailed(fate) =>
          history := Release(history, Child(spawned, 0), fate);
          spawned := spawned + 1;
          HandleFailedStart(i.atFailure);
      }
    }

    /** One turn of the loop; `running` is false when the loop ends. */
    method Turn(i: Inputs) returns (running: bool)
      modifies this
      ensures running == !i.control.Shutdown?
      ensures TheStage() == Iterate(cfg, old(TheStage().l), old(runtime), old(history), i)
    {
      sections := [];
      running := !i.control.Shutdown?;
      Receive(i);
      if running {
        PollChild(i);
        StartIfDue(i);
      }
    }
  }
}
