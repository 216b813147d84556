/** What the worker does for its user: requests are served, and an automatic restart waits its delay. */
module WorkerService {
  import opened Basics
  import opened Worker
  import opened WorkerSafety

  /** A Restart, or a Start of a tool that is down, is followed by a start attempt in the same
      iteration; a Start of a running tool leaves it running; a Stop leaves the tool down, unwanted and
      without a deadline. */
  lemma RequestsAreServed(cfg: Config, states: seq<State>, inputs: seq<Inputs>, n: nat)
    requires IsRun(cfg, states, inputs) && n < |inputs|
    ensures var s, s', i := states[n], states[n + 1], inputs[n];
            && (i.control.Restart? || (i.control.Start? && s.l.process.None?) ==> s'.h.attempts == s.h.attempts + 1)
            && (i.control.Start? && s.l.process.Some? && !i.poll.Gone? ==> s'.l.process == s.l.process)
            && (i.control.Stop? ==> s'.l.process.None? && !s'.l.desired && s'.l.nextStart.None? && s'.rt.state.Stopped?)
  {
    RunKeeps(cfg, states, inputs, n);
    var s, i := states[n], inputs[n];
    var received := ReceiveControl(Stage(s.l, s.rt, s.h, []), i);
    if i.control.Restart? || (i.control.Start? && s.l.process.None?) {
      assert Due(received.l, i.atCheck);
      assert CheckExit(cfg, received, i) == received;
    }
  }

  /** A tool shown as restarting waits for the delay to pass since the restart was scheduled. */
  ghost predicate Waiting(cfg: Config, s: State) {
    s.rt.state.Restarting? ==> s.h.autos != [] && s.l.nextStart == Some(Last(s.h.autos) + cfg.delay)
  }

  lemma FailedStartWaits(cfg: Config, s: Stage, now: nat)
    ensures var r := FailStart(cfg, s, now);
            r.rt.state.Restarting? ==> r.h.autos != [] && r.l.nextStart == Some(Last(r.h.autos) + cfg.delay)
  {
  }

  /** A stage that, if it restarts, waits; `unless` it is about to start anyway. */
  ghost predicate StageWaits(cfg: Config, s: Stage, unless: bool) {
    s.rt.state.Restarting? && !unless ==> s.h.autos != [] && s.l.nextStart == Some(Last(s.h.autos) + cfg.delay)
  }

  lemma CheckedWaits(cfg: Config, s: State, i: Inputs)
    requires Settled(s.l, s.rt) && Waiting(cfg, s) && Timely(s, i)
    ensures var received := ReceiveControl(Stage(s.l, s.rt, s.h, []), i);
            if i.control.Shutdown? then StageWaits(cfg, received, false)
            else var checked := CheckExit(cfg, received, i); StageWaits(cfg, checked, Due(checked.l, i.atCheck))
  {
  }

  lemma StartedWaits(cfg: Config, s: Stage, i: Inputs)
    requires StageWaits(cfg, s, Due(s.l, i.atCheck))
    ensures StageWaits(cfg, TryStart(cfg, s, i), false)
  {
    if Due(s.l, i.atCheck) {
      var begun := BeginStart(s);
      match i.start
      case Started(_, _) =>
      case NotSpawned => FailedStartWaits(cfg, begun, i.atFailure);
      case AttachFailed(fate) => FailedStartWaits(cfg, Discard(begun, fate), i.atFailure);
    }
  }

  lemma OnwardWaits(cfg: Config, s: State, i: Inputs)
    requires Settled(s.l, s.rt) && Waiting(cfg, s) && Timely(s, i) && !i.control.Shutdown?
    ensures StageWaits(cfg, Iterate(cfg, s.l, s.rt, s.h, i), false)
  {
    CheckedWaits(cfg, s, i);
    StartedWaits(cfg, CheckExit(cfg, ReceiveControl(Stage(s.l, s.rt, s.h, []), i), i), i);
  }

  lemma ShutdownWaits(cfg: Config, s: State, i: Inputs)
    requires i.control.Shutdown?
    ensures StageWaits(cfg, Iterate(cfg, s.l, s.rt, s.h, i), false)
  {
  }

  lemma NextWaits(cfg: Config, s: State, i: Inputs)
    requires Settled(s.l, s.rt) && Waiting(cfg, s) && Timely(s, i)
    ensures Waiting(cfg, Next(cfg, s, i))
  {
    var r := Iterate(cfg, s.l, s.rt, s.h, i);
    if i.control.Shutdown? {
      ShutdownWaits(cfg, s, i);
    } else {
      OnwardWaits(cfg, s, i);
    }
    assert Next(cfg, s, i) == State(r.l, r.rt, r.h, i.atFailure, i.control.Shutdown?);
  }

  lemma {:induction false} RunWaits(cfg: Config, states: seq<State>, inputs: seq<Inputs>, n: nat)
    requires IsRun(cfg, states, inputs) && n < |states|
    ensures Waiting(cfg, states[n])
  {
    if n > 0 {
      RunWaits(cfg, states, inputs, n - 1);
      RunKeeps(cfg, states, inputs, n - 1);
      NextWaits(cfg, states[n - 1], inputs[n - 1]);
    }
  }

  /** Without a request, a restarting tool is started in exactly the first iteration that looks at the
      clock when the delay has passed since the restart was scheduled. */
  lemma RestartWaitsExactly(cfg: Config, states: seq<State>, inputs: seq<Inputs>, n: nat)
    requires IsRun(cfg, states, inputs) && n < |inputs| && states[n].rt.state.Restarting?
    requires inputs[n].control.Tick? || inputs[n].control.Sample?
    ensures states[n].h.autos != []
    ensures states[n + 1].h.attempts > states[n].h.attempts
            <==> inputs[n].atCheck >= Last(states[n].h.autos) + cfg.delay
  {
    RunKeeps(cfg, states, inputs, n);
    RunWaits(cfg, states, inputs, n);
  }
}
