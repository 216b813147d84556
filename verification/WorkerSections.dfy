/** What the shared record shows while an iteration of the worker is under way, between its critical sections. */
module WorkerSections {
  import opened Basics
  import opened Worker
  import opened WorkerSafety
  import opened MemorySampling

  /** The record after the first `k` sections, as far as the worker changes it. */
  function After(rt: Runtime, sections: seq<Section>, k: nat): Runtime
    requires k <= |sections|
  {
    ApplyAll(rt, sections[..k])
  }

  /** The child of `pid` is shown as stopping after `k` sections, and one section later as gone. */
  ghost predicate StopsAt(rt: Runtime, sections: seq<Section>, pid: nat, k: nat) {
    && 0 < k < |sections|
    && After(rt, sections, k).state.Stopping? && After(rt, sections, k).pid == Some(pid)
    && After(rt, sections, k).startedAt == rt.startedAt
    && var last := After(rt, sections, k + 1);
       last.state.Stopped? && last.pid.None? && last.memory == Memory.Idle && last.startedAt.None?
  }

  lemma AfterMore(rt: Runtime, sections: seq<Section>, more: seq<Section>, k: nat)
    requires k <= |sections| && sections <= more
    ensures After(rt, more, k) == After(rt, sections, k)
  {
    assert more[..k] == sections[..k];
  }

  lemma AfterLast(rt: Runtime, sections: seq<Section>, k: nat)
    requires 0 < k <= |sections|
    ensures After(rt, sections, k) == Apply(After(rt, sections, k - 1), sections[k - 1])
  {
    assert sections[..k][..k - 1] == sections[..k - 1];
  }

  lemma StopsStay(rt: Runtime, sections: seq<Section>, more: seq<Section>, pid: nat, k: nat)
    requires StopsAt(rt, sections, pid, k) && sections <= more
    ensures StopsAt(rt, more, pid, k)
  {
    AfterMore(rt, sections, more, k);
    AfterMore(rt, sections, more, k + 1);
  }

  lemma ReceivedStops(s: Stage, i: Inputs)
    requires s.l.process.Some? && s.sections == [] && s.rt.pid == Some(s.l.process.value.pid)
    requires i.control.Stop? || i.control.Restart? || i.control.Shutdown?
    ensures var sections := ReceiveControl(s, i).sections;
            |sections| > 1 && StopsAt(s.rt, sections, s.l.process.value.pid, |sections| - 1)
  {
    var sections := ReceiveControl(s, i).sections;
    var n := |sections|;
    assert n >= 2 && sections[n - 1] == ResetStopped && sections[n - 2] == MarkStopping;
    AfterLast(s.rt, sections, n);
    AfterLast(s.rt, sections, n - 1);
    if i.control.Restart? {
      assert n == 3 && sections[0] == MarkRestarting(true);
      AfterLast(s.rt, sections, 1);
    }
    assert After(s.rt, sections, 0) == s.rt;
  }

  lemma ExitExtends(cfg: Config, s: Stage, i: Inputs)
    ensures s.sections <= CheckExit(cfg, s, i).sections
  {
  }

  lemma StartExtends(cfg: Config, s: Stage, i: Inputs)
    ensures s.sections <= TryStart(cfg, s, i).sections
  {
  }

  /** In every run: whenever a held child is stopped, by a Stop, a Restart or the end of the manager, there is a
      moment within the iteration at which the tool is shown as stopping, still with the pid and the start time of
      the child, and the next thing the worker shows is a stopped tool without a process. */
  lemma StopIsShown(cfg: Config, states: seq<State>, inputs: seq<Inputs>, n: nat)
    requires IsRun(cfg, states, inputs) && n < |inputs| && states[n].l.process.Some?
    requires inputs[n].control.Stop? || inputs[n].control.Restart? || inputs[n].control.Shutdown?
    ensures var sections := Iterate(cfg, states[n].l, states[n].rt, states[n].h, inputs[n]).sections;
            exists k :: StopsAt(states[n].rt, sections, states[n].l.process.value.pid, k)
  {
    IterationsSettle(cfg, states, inputs, n);
    var s, i := Stage(states[n].l, states[n].rt, states[n].h, []), inputs[n];
    ReceivedStops(s, i);
    var received := ReceiveControl(s, i);
    var pid, k := s.l.process.value.pid, |received.sections| - 1;
    if !i.control.Shutdown? {
      ExitExtends(cfg, received, i);
      StartExtends(cfg, CheckExit(cfg, received, i), i);
      StopsStay(s.rt, received.sections, TryStart(cfg, CheckExit(cfg, received, i), i).sections, pid, k);
    }
  }

  /** The two sections of a start, and what the record shows between them. */
  lemma StartTells(cfg: Config, s: Stage, i: Inputs, rt: Runtime)
    requires s.rt == ApplyAll(rt, s.sections) && Due(s.l, i.atCheck)
    ensures var sections := TryStart(cfg, s, i).sections;
            && |sections| == |s.sections| + 2
            && After(rt, sections, |sections| - 1) == s.rt.(state := Starting)
  {
    var sections := TryStart(cfg, s, i).sections;
    var begun := s.sections + [MarkStarting];
    assert sections == begun + [sections[|s.sections| + 1]];
    assert sections[..|begun|] == begun && begun[..|s.sections|] == s.sections;
  }

  lemma OnlyStartsAttempt(cfg: Config, s: State, i: Inputs)
    requires Next(cfg, s, i).h.attempts > s.h.attempts
    ensures !i.control.Shutdown?
    ensures Due(CheckExit(cfg, ReceiveControl(Stage(s.l, s.rt, s.h, []), i), i).l, i.atCheck)
  {
  }

  lemma CheckedTells(cfg: Config, s: State, i: Inputs)
    ensures var checked := CheckExit(cfg, ReceiveControl(Stage(s.l, s.rt, s.h, []), i), i);
            checked.rt == ApplyAll(s.rt, checked.sections)
  {
    var start := Stage(s.l, s.rt, s.h, []);
    ReceiveTells(start, i, s.rt, s.l.process);
    CheckExitTells(cfg, ReceiveControl(start, i), i, s.rt, s.l.process);
  }

  lemma CheckedAgrees(cfg: Config, s: State, i: Inputs)
    requires Settled(s.l, s.rt) && Timely(s, i)
    ensures var checked := CheckExit(cfg, ReceiveControl(Stage(s.l, s.rt, s.h, []), i), i);
            checked.l.process.None? ==> checked.rt.pid.None?
  {
    var start := Stage(s.l, s.rt, s.h, []);
    ReceiveKeepsAgreement(start, i);
    CheckExitKeepsAgreement(cfg, ReceiveControl(start, i), i, i.atControl);
  }

  /** In every run: an iteration that attempts a start shows the tool as starting, without a process, until its
      outcome is known. */
  lemma StartIsShown(cfg: Config, states: seq<State>, inputs: seq<Inputs>, n: nat)
    requires IsRun(cfg, states, inputs) && n < |inputs| && states[n + 1].h.attempts > states[n].h.attempts
    ensures var rt, sections := states[n].rt, Iterate(cfg, states[n].l, states[n].rt, states[n].h, inputs[n]).sections;
            && |sections| > 1
            && After(rt, sections, |sections| - 1).state.Starting? && After(rt, sections, |sections| - 1).pid.None?
            && After(rt, sections, |sections|) == states[n + 1].rt
  {
    var s, i := states[n], inputs[n];
    RunKeeps(cfg, states, inputs, n);
    IterationTells(cfg, s.l, s.rt, s.h, i);
    OnlyStartsAttempt(cfg, s, i);
    CheckedTells(cfg, s, i);
    CheckedAgrees(cfg, s, i);
    var checked := CheckExit(cfg, ReceiveControl(Stage(s.l, s.rt, s.h, []), i), i);
    StartTells(cfg, checked, i, s.rt);
    var sections := TryStart(cfg, checked, i).sections;
    assert sections[..|sections|] == sections;
  }
}
