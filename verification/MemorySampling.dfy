/**
 Memory sampling: the user interface and any number of sampler threads change the runtime record of
 a tool while its worker does.  Every step below is one critical section, so what holds of every
 reachable world holds at every release of the lock.
 */
module MemorySampling {
  import opened Basics
  import opened Worker
  import opened WorkerSafety

  datatype Phase = Sleeping | Measuring

  /** A sampler thread for the process `child`; `further` samples follow the current one. */
  datatype Sampler = Sampler(child: Child, phase: Phase, further: nat)

  /** `rt` is the shared record, `todo` the sections the worker has still to run in this iteration,
      and `worker` the worker at the end of the iteration.  History: the child whose pid is shown, the
      child a shown size was measured for, and all children ever shown. */
  datatype World = World(
    rt: Runtime,
    todo: seq<Section>,
    worker: State,
    samplers: seq<Sampler>,
    owner: Option<Child>,
    origin: Option<Child>,
    adopted: set<Child>)

  datatype Step =
    | Begin(inputs: Inputs)
    | Proceed(samples: nat)
    | Request
    | Wake(k: nat)
    | Finish(k: nat, value: Option<nat>)

  function OwnerAfter(owner: Option<Child>, s: Section): Option<Child> {
    match s
    case ResetStopped => None
    case ChildGone(_, _) => None
    case MarkRunning(child, _) => Some(child)
    case _ => owner
  }

  function Remove<T>(s: seq<T>, k: nat): seq<T>
    requires k < |s|
  {
    s[..k] + s[k + 1..]
  }

  ghost predicate Enabled(w: World, s: Step) {
    match s
    case Begin(i) => w.todo == [] && Timely(w.worker, i)
    case Proceed(samples) => w.todo != [] && 1 <= samples
    case Request => true
    case Wake(k) => k < |w.samplers| && w.samplers[k].phase.Sleeping?
    case Finish(k, _) => k < |w.samplers| && w.samplers[k].phase.Measuring?
  }

  /** The worker's next section; a started child gets a refresh thread. */
  function RunSection(w: World, samples: nat): World
    requires w.todo != [] && 1 <= samples
  {
    var s := w.todo[0];
    var w' := w.(rt := Apply(w.rt, s), todo := w.todo[1..], owner := OwnerAfter(w.owner, s));
    if s.MarkRunning? then
      w'.(samplers := w.samplers + [Sampler(s.child, Sleeping, samples - 1)], adopted := w.adopted + {s.child})
    else w'
  }

  /** `sample_memory`. */
  function RequestSample(w: World): World {
    if !w.rt.state.Running? then w.(rt := w.rt.(memory := Idle))
    else if w.owner.None? then w.(rt := w.rt.(memory := Pending))
    else w.(rt := w.rt.(memory := Pending), samplers := w.samplers + [Sampler(w.owner.value, Measuring, 0)])
  }

  function WakeSampler(w: World, k: nat): World
    requires k < |w.samplers|
  {
    var sampler := w.samplers[k];
    if w.rt.pid != Some(sampler.child.pid) then w.(samplers := Remove(w.samplers, k))
    else w.(rt := w.rt.(memory := Pending), samplers := w.samplers[k := sampler.(phase := Measuring)])
  }

  function FinishSampler(w: World, k: nat, value: Option<nat>): World
    requires k < |w.samplers|
  {
    var sampler := w.samplers[k];
    if w.rt.pid != Some(sampler.child.pid) then w.(samplers := Remove(w.samplers, k))
    else
      w.(rt := w.rt.(memory := if value.Some? then Bytes(value.value) else Unavailable),
         origin := Some(sampler.child),
         samplers := if sampler.further == 0 then Remove(w.samplers, k)
                     else w.samplers[k := Sampler(sampler.child, Sleeping, sampler.further - 1)])
  }

  function Do(cfg: Config, w: World, s: Step): World
    requires Enabled(w, s)
  {
    match s
    case Begin(i) =>
      w.(worker := Next(cfg, w.worker, i), todo := Iterate(cfg, w.worker.l, w.worker.rt, w.worker.h, i).sections)
    case Proceed(samples) => RunSection(w, samples)
    case Request => RequestSample(w)
    case Wake(k) => WakeSampler(w, k)
    case Finish(k, value) => FinishSampler(w, k, value)
  }

  ghost predicate Init(cfg: Config, w: World) {
    w == World(InitialState(cfg, w.worker.clock).rt, [], InitialState(cfg, w.worker.clock), [], None, None, {})
  }

  ghost predicate IsInterleaving(cfg: Config, worlds: seq<World>, steps: seq<Step>) {
    && |worlds| == |steps| + 1
    && Init(cfg, worlds[0])
    && forall n | 0 <= n < |steps| :: Enabled(worlds[n], steps[n]) && worlds[n + 1] == Do(cfg, worlds[n], steps[n])
  }

  // ---------- what the sections of an iteration add up to ----------

  function ApplyAll(rt: Runtime, sections: seq<Section>): Runtime {
    if sections == [] then rt else Apply(ApplyAll(rt, sections[..|sections| - 1]), Last(sections))
  }

  function OwnerAfterAll(owner: Option<Child>, sections: seq<Section>): Option<Child> {
    if sections == [] then owner else OwnerAfter(OwnerAfterAll(owner, sections[..|sections| - 1]), Last(sections))
  }

  predicate NeverRunning(s: Section) {
    (s.ChildGone? ==> !s.next.Running?) && (s.StartFailed? ==> !s.next.Running?)
  }

  /** A stage that began with runtime `rt` and process `p` is told by its sections. */
  ghost predicate Told(s: Stage, rt: Runtime, p: Option<Child>) {
    && s.rt == ApplyAll(rt, s.sections) && s.l.process == OwnerAfterAll(p, s.sections)
    && forall k | 0 <= k < |s.sections| :: NeverRunning(s.sections[k])
  }

  lemma LockTells(s: Stage, section: Section, l: Locals, h: History, rt: Runtime, p: Option<Child>)
    requires Told(s, rt, p) && NeverRunning(section) && l.process == OwnerAfter(s.l.process, section)
    ensures Told(Lock(s.(l := l, h := h), section), rt, p)
  {
    var all := s.sections + [section];
    assert all[..|all| - 1] == s.sections;
  }

  lemma StopChildTells(s: Stage, fate: Fate, rt: Runtime, p: Option<Child>)
    requires Told(s, rt, p)
    ensures Told(StopChild(s, fate), rt, p)
  {
    if s.l.process.None? {
      LockTells(s, ResetStopped, s.l, s.h, rt, p);
    } else {
      LockTells(s, MarkStopping, s.l, s.h, rt, p);
      var r := StopChild(s, fate);
      LockTells(Lock(s, MarkStopping), ResetStopped, r.l, r.h, rt, p);
      assert r == Lock(Lock(s, MarkStopping).(l := r.l, h := r.h), ResetStopped);
    }
  }

  lemma ReceiveTells(s: Stage, i: Inputs, rt: Runtime, p: Option<Child>)
    requires Told(s, rt, p) && s.sections == []
    ensures Told(ReceiveControl(s, i), rt, p)
  {
    var r := ReceiveControl(s, i);
    match i.control
    case Start => if s.l.process.None? { LockTells(s, ClearCount, r.l, r.h, rt, p); }
    case Stop => StopChildTells(s.(l := s.l.(desired := false, nextStart := None)), i.stopFate, rt, p);
    case Restart =>
      var live := s.l.process.Some?;
      var l := s.l.(desired := true, nextStart := Some(i.atControl));
      var h := s.h.(restartControls := s.h.restartControls + 1,
                    liveRestarts := s.h.liveRestarts + if live then 1 else 0);
      LockTells(s, MarkRestarting(live), l, h, rt, p);
      StopChildTells(Lock(s.(l := l, h := h), MarkRestarting(live)), i.stopFate, rt, p);
    case Shutdown => StopChildTells(s, i.stopFate, rt, p);
    case Sample =>
    case Tick =>
  }

  lemma CheckExitTells(cfg: Config, s: Stage, i: Inputs, rt: Runtime, p: Option<Child>)
    requires Told(s, rt, p)
    ensures Told(CheckExit(cfg, s, i), rt, p)
  {
    var r := CheckExit(cfg, s, i);
    if r != s {
      LockTells(s, Last(r.sections), r.l, r.h, rt, p);
    }
  }

  lemma FailStartTells(cfg: Config, s: Stage, now: nat, rt: Runtime, p: Option<Child>)
    requires Told(s, rt, p)
    ensures Told(FailStart(cfg, s, now), rt, p)
  {
    var r := FailStart(cfg, s, now);
    LockTells(s, Last(r.sections), r.l, r.h, rt, p);
  }

  lemma TryStartTells(cfg: Config, s: Stage, i: Inputs, rt: Runtime, p: Option<Child>)
    requires Told(s, rt, p)
    ensures Told(TryStart(cfg, s, i), rt, p)
  {
    if Due(s.l, i.atCheck) {
      LockTells(s, MarkStarting, BeginStart(s).l, BeginStart(s).h, rt, p);
      match i.start
      case Started(pid, at) =>
        var r := Adopt(BeginStart(s), pid, at);
        LockTells(BeginStart(s), Last(r.sections), r.l, r.h, rt, p);
      case NotSpawned => FailStartTells(cfg, BeginStart(s), i.atFailure, rt, p);
      case AttachFailed(fate) => FailStartTells(cfg, Discard(BeginStart(s), fate), i.atFailure, rt, p);
    }
  }

  lemma IterationTells(cfg: Config, l: Locals, rt: Runtime, h: History, i: Inputs)
    ensures Told(Iterate(cfg, l, rt, h, i), rt, l.process)
  {
    var s := Stage(l, rt, h, []);
    ReceiveTells(s, i, rt, l.process);
    var received := ReceiveControl(s, i);
    CheckExitTells(cfg, received, i, rt, l.process);
    TryStartTells(cfg, CheckExit(cfg, received, i), i, rt, l.process);
  }

  /** Everything but the memory field, which is all that samplers change. */
  function Visible(rt: Runtime): Runtime {
    rt.(memory := Idle)
  }

  lemma {:induction false} SectionsIgnoreMemory(a: Runtime, b: Runtime, sections: seq<Section>)
    requires Visible(a) == Visible(b)
    ensures Visible(ApplyAll(a, sections)) == Visible(ApplyAll(b, sections))
  {
    if sections != [] {
      SectionsIgnoreMemory(a, b, sections[..|sections| - 1]);
    }
  }

  lemma {:induction false} FirstSection(rt: Runtime, owner: Option<Child>, sections: seq<Section>)
    requires sections != []
    ensures ApplyAll(rt, sections) == ApplyAll(Apply(rt, sections[0]), sections[1..])
    ensures OwnerAfterAll(owner, sections) == OwnerAfterAll(OwnerAfter(owner, sections[0]), sections[1..])
  {
    if |sections| > 1 {
      var init := sections[..|sections| - 1];
      FirstSection(rt, owner, init);
      assert sections[1..][..|sections| - 2] == init[1..];
    }
  }

  // ---------- invariants ----------

  ghost predicate Outstanding(samplers: seq<Sampler>, pid: Option<nat>) {
    exists k | 0 <= k < |samplers| :: samplers[k].phase.Measuring? && pid == Some(samplers[k].child.pid)
  }

  ghost predicate MemoryHonest(w: World) {
    && (w.rt.state.Running? ==> w.rt.pid.Some?)
    && (w.rt.pid.None? ==> w.rt.memory.Idle?)
    && (w.rt.memory.Bytes? ==> w.origin.Some? && w.rt.pid == Some(w.origin.value.pid))
    && (w.rt.memory.Pending? ==> Outstanding(w.samplers, w.rt.pid))
  }

  ghost predicate Known(w: World) {
    && w.rt.pid == (if w.owner.Some? then Some(w.owner.value.pid) else None)
    && (w.owner.Some? ==> w.owner.value in w.adopted)
    && (w.origin.Some? ==> w.origin.value in w.adopted)
    && forall k | 0 <= k < |w.samplers| :: w.samplers[k].child in w.adopted
  }

  /** The pending sections lead to where the worker already is. */
  ghost predicate LeadsToWorker(w: World) {
    && Visible(ApplyAll(w.rt, w.todo)) == Visible(w.worker.rt)
    && OwnerAfterAll(w.owner, w.todo) == w.worker.l.process
    && forall k | 0 <= k < |w.todo| :: NeverRunning(w.todo[k])
  }

  ghost predicate Sound(cfg: Config, w: World) {
    MemoryHonest(w) && Known(w) && LeadsToWorker(w) && Inv(cfg, w.worker)
  }

  lemma BeginKeeps(cfg: Config, w: World, i: Inputs)
    requires Sound(cfg, w) && Enabled(w, Begin(i))
    ensures Sound(cfg, Do(cfg, w, Begin(i)))
  {
    var r := Iterate(cfg, w.worker.l, w.worker.rt, w.worker.h, i);
    IterationTells(cfg, w.worker.l, w.worker.rt, w.worker.h, i);
    SectionsIgnoreMemory(w.rt, w.worker.rt, r.sections);
    NextKeeps(cfg, w.worker, i);
  }

  lemma RunSectionKeepsHonest(w: World, samples: nat)
    requires w.todo != [] && 1 <= samples && MemoryHonest(w) && NeverRunning(w.todo[0])
    ensures MemoryHonest(RunSection(w, samples))
  {
    var w' := RunSection(w, samples);
    if w'.rt.memory.Pending? {
      assert w'.rt.pid == w.rt.pid && w'.samplers == w.samplers;
    }
  }

  lemma RunSectionKeepsKnown(w: World, samples: nat)
    requires w.todo != [] && 1 <= samples && Known(w)
    ensures Known(RunSection(w, samples))
  {
  }

  lemma RunSectionLeads(w: World, samples: nat)
    requires w.todo != [] && 1 <= samples && LeadsToWorker(w)
    ensures LeadsToWorker(RunSection(w, samples)) && NeverRunning(w.todo[0])
  {
    FirstSection(w.rt, w.owner, w.todo);
  }

  lemma ProceedKeeps(cfg: Config, w: World, samples: nat)
    requires Sound(cfg, w) && Enabled(w, Proceed(samples))
    ensures Sound(cfg, Do(cfg, w, Proceed(samples)))
  {
    RunSectionLeads(w, samples);
    RunSectionKeepsKnown(w, samples);
    RunSectionKeepsHonest(w, samples);
  }

  lemma RemoveKeepsOutstanding(samplers: seq<Sampler>, k: nat, pid: Option<nat>)
    requires k < |samplers| && pid != Some(samplers[k].child.pid) && Outstanding(samplers, pid)
    ensures Outstanding(Remove(samplers, k), pid)
  {
    var j :| 0 <= j < |samplers| && samplers[j].phase.Measuring? && pid == Some(samplers[j].child.pid);
    var rest := Remove(samplers, k);
    assert j < k ==> rest[j] == samplers[j];
    assert k < j ==> rest[j - 1] == samplers[j];
  }

  lemma SamplerKeeps(cfg: Config, w: World, s: Step)
    requires Sound(cfg, w) && Enabled(w, s) && (s.Wake? || s.Finish?)
    ensures Sound(cfg, Do(cfg, w, s))
  {
    var w' := Do(cfg, w, s);
    SectionsIgnoreMemory(w.rt, w'.rt, w.todo);
    if w.rt.pid != Some(w.samplers[s.k].child.pid) {
      if w.rt.memory.Pending? {
        RemoveKeepsOutstanding(w.samplers, s.k, w.rt.pid);
      }
    } else if s.Wake? {
      assert w'.samplers[s.k].phase.Measuring?;
    }
  }

  lemma RequestKeeps(cfg: Config, w: World)
    requires Sound(cfg, w)
    ensures Sound(cfg, Do(cfg, w, Request))
  {
    var w' := Do(cfg, w, Request);
    SectionsIgnoreMemory(w.rt, w'.rt, w.todo);
    if w'.rt.memory.Pending? {
      assert w'.samplers[|w.samplers|].phase.Measuring?;
    }
  }

  lemma StepKeeps(cfg: Config, w: World, s: Step)
    requires Sound(cfg, w) && Enabled(w, s)
    ensures Sound(cfg, Do(cfg, w, s))
  {
    match s
    case Begin(i) => BeginKeeps(cfg, w, i);
    case Proceed(samples) => ProceedKeeps(cfg, w, samples);
    case Request => RequestKeeps(cfg, w);
    case Wake(_) => SamplerKeeps(cfg, w, s);
    case Finish(_, _) => SamplerKeeps(cfg, w, s);
  }

  lemma {:induction false} InterleavingKeeps(cfg: Config, worlds: seq<World>, steps: seq<Step>, n: nat)
    requires IsInterleaving(cfg, worlds, steps) && n < |worlds|
    ensures Sound(cfg, worlds[n])
  {
    if n > 0 {
      InterleavingKeeps(cfg, worlds, steps, n - 1);
      StepKeeps(cfg, worlds[n - 1], steps[n - 1]);
    }
  }

  /** At every release of the lock, in every interleaving: a running tool has a pid; without a pid the
      memory field is idle; a size was measured for the pid shown; and a pending measurement is being
      made for it. */
  lemma MemoryIsHonest(cfg: Config, worlds: seq<World>, steps: seq<Step>, n: nat)
    requires IsInterleaving(cfg, worlds, steps) && n < |worlds|
    ensures var w := worlds[n];
            && (w.rt.state.Running? ==> w.rt.pid.Some?)
            && (w.rt.pid.None? ==> w.rt.memory.Idle?)
            && (w.rt.memory.Bytes? ==> w.origin.Some? && w.rt.pid == Some(w.origin.value.pid))
            && (w.rt.memory.Pending? ==> Outstanding(w.samplers, w.rt.pid))
  {
    InterleavingKeeps(cfg, worlds, steps, n);
  }

  /** Between iterations the shared record is the worker's, whatever the samplers did meanwhile. */
  lemma RecordIsSettled(cfg: Config, worlds: seq<World>, steps: seq<Step>, n: nat)
    requires IsInterleaving(cfg, worlds, steps) && n < |worlds| && worlds[n].todo == []
    ensures Visible(worlds[n].rt) == Visible(worlds[n].worker.rt) && Settled(worlds[n].worker.l, worlds[n].rt)
    ensures worlds[n].owner == worlds[n].worker.l.process
  {
    InterleavingKeeps(cfg, worlds, steps, n);
  }

  // ---------- reused pids ----------

  /** A size belongs to the very process shown as long as the system does not reuse a pid. */
  lemma SizesAreCurrent(cfg: Config, worlds: seq<World>, steps: seq<Step>, n: nat)
    requires IsInterleaving(cfg, worlds, steps) && n < |worlds|
    requires forall a, b | a in worlds[n].adopted && b in worlds[n].adopted && a.pid == b.pid :: a == b
    ensures worlds[n].rt.memory.Bytes? ==> worlds[n].origin == worlds[n].owner
  {
    InterleavingKeeps(cfg, worlds, steps, n);
  }

  /** The samplers compare pids, not processes: one outstanding for a process that is gone writes its
      size into the record exactly when the process now shown was given the same pid. */
  lemma StaleSizeExactly(cfg: Config, worlds: seq<World>, steps: seq<Step>, n: nat)
    requires IsInterleaving(cfg, worlds, steps) && n < |steps| && steps[n].Finish? && steps[n].value.Some?
    requires worlds[n].owner.Some? && worlds[n].samplers[steps[n].k].child != worlds[n].owner.value
    ensures if worlds[n].samplers[steps[n].k].child.pid == worlds[n].owner.value.pid
            then worlds[n + 1].rt.memory == Bytes(steps[n].value.value) && worlds[n + 1].origin != worlds[n + 1].owner
            else worlds[n + 1].rt == worlds[n].rt && worlds[n + 1].origin == worlds[n].origin
  {
    InterleavingKeeps(cfg, worlds, steps, n);
  }
}
