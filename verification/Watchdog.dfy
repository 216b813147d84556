/**
 The Linux process watchdog: a second process that outlives the manager and takes the managed tree
 down when the manager is gone.

 The manager holds the write end of the watchdog's control pipe.  A `D` on the pipe disarms the
 watchdog; end of file, an error or any other byte makes it stop the tree.  The manager may crash
 between any two steps, and the guard may be dropped while the tree still runs.  An empty tree stays
 empty, and nobody but the manager kills the watchdog.
 */
module Watchdog {
  import opened Basics
  import opened Stopping

  /** What `cgroup.events` says, and what probing the process group with signal 0 says. */
  datatype Cgroup = NoScope | Populated | Unpopulated | Unreadable
  datatype Group = Alive | NotPermitted | NoSuchGroup | OtherError

  datatype Probe = Probe(cgroup: Cgroup, group: Group)

  /** `ProcessGroup::is_tree_running`, the manager's question, for an attached guard. */
  function IsTreeRunning(p: Probe): Answer {
    if p.cgroup.Populated? then Yes
    else if p.cgroup.Unreadable? then Failed
    else match p.group
      case Alive => Yes
      case NotPermitted => Yes
      case NoSuchGroup => No
      case OtherError => Failed
  }

  /** `managed_tree_running`, the watchdog's question. */
  predicate ManagedTreeRunning(p: Probe) {
    p.cgroup.Populated? || p.cgroup.Unreadable? || p.group.Alive? || p.group.NotPermitted?
  }

  /** The two processes judge the tree alike, a failed question counting as a running tree for the
      manager, except when probing the group fails in a way `kill` does not document: then, and only
      with no cgroup to contradict it, the watchdog takes the tree for empty. */
  lemma VerdictsAgreeExactly(p: Probe)
    ensures (ManagedTreeRunning(p) <==> !IsTreeRunning(p).No?)
       <==> !(p.group.OtherError? && (p.cgroup.NoScope? || p.cgroup.Unpopulated?))
  {
    match p.group
    case Alive =>
    case NotPermitted =>
    case NoSuchGroup =>
    case OtherError =>
  }

  datatype Delivery = Delivered | Absent | Refused

  /** `signal_managed_tree`.  It complains exactly when some delivery was refused, none succeeded, and
      the tree was still there afterwards. */
  method SignalManagedTree(group: Delivery, scope: Option<bool>, after: Probe) returns (ok: bool)
    ensures !ok <==>
            && group != Delivered && scope != Some(true)
            && (group == Refused || scope == Some(false))
            && ManagedTreeRunning(after)
  {
    var delivered, errors := false, 0;
    match group {
      case Delivered => delivered := true;
      case Absent =>
      case Refused => errors := errors + 1;
    }
    if scope.Some? {
      if scope.value {
        delivered := true;
      } else {
        errors := errors + 1;
      }
    }
    ok := delivered || errors == 0 || !ManagedTreeRunning(after);
  }

  /** How a watchdog ended. */
  datatype Ending = Disarmed | SawTreeEmpty | IssuedKill | KilledByManager

  datatype WatchPoint = Reading | StoppingTree | Ended(how: Ending)

  /** A watchdog that has reported ready, and what is in its pipe. */
  datatype Dog = Dog(at: WatchPoint, disarm: bool, writerOpen: bool)

  datatype ManagerPoint = Guarding | Disarming | Awaiting | Gone

  /** `treeEmpty` is the truth about the managed tree; the history says whether the manager has been
      told so, and how watchdogs ended. */
  datatype World = World(
    manager: ManagerPoint,
    dog: Option<Dog>,
    treeEmpty: bool,
    managerSawEmpty: bool,
    ended: seq<Ending>)

  datatype PipeRead = Data(isDisarm: bool) | EndOfFile | ReadError | Interrupted

  datatype Step =
    | TreeEmpties
    | Attach(ready: bool)
    | CheckHealth(probe: Probe, ready: bool)
    | ManagerCrash
    | Drop(probe: Probe)
    | Disarm(written: bool)
    | AwaitEnds(killed: bool)
    | DogReads(event: PipeRead)
    | DogPolls(probe: Probe, late: bool)

  /** The kernel finds no group and no populated cgroup only when the tree is empty, and probing fails
      only in the documented ways. */
  predicate Truthful(w: World, p: Probe) {
    !p.group.OtherError? && (IsTreeRunning(p).No? ==> w.treeEmpty)
  }

  predicate DogRunning(w: World) {
    w.dog.Some? && !w.dog.value.at.Ended?
  }

  /** What a read of the control pipe can return. */
  predicate CanRead(d: Dog, event: PipeRead) {
    match event
    case Data(isDisarm) => isDisarm && d.disarm
    case EndOfFile => !d.disarm && !d.writerOpen
    case ReadError => true
    case Interrupted => true
  }

  predicate Enabled(w: World, s: Step) {
    match s
    case TreeEmpties => true
    case Attach(_) => w.manager.Guarding? && w.dog.None?
    case CheckHealth(p, _) => w.manager.Guarding? && Truthful(w, p)
    case ManagerCrash => !w.manager.Gone?
    case Drop(p) => w.manager.Guarding? && Truthful(w, p)
    case Disarm(_) => w.manager.Disarming?
    case AwaitEnds(_) => w.manager.Awaiting?
    case DogReads(event) => w.dog.Some? && w.dog.value.at.Reading? && CanRead(w.dog.value, event)
    case DogPolls(p, _) => w.dog.Some? && w.dog.value.at.StoppingTree? && Truthful(w, p)
  }

  function SetDog(w: World, d: Dog): World {
    w.(dog := Some(d))
  }

  function EndDog(w: World, how: Ending): World
    requires w.dog.Some?
  {
    w.(dog := Some(w.dog.value.(at := Ended(how))), ended := w.ended + [how])
  }

  function CloseWriter(w: World): World {
    if w.dog.None? then w else SetDog(w, w.dog.value.(writerOpen := false))
  }

  /** `spawn_watchdog`: a watchdog that does not report ready is killed and leaves none. */
  function Spawned(ready: bool): Option<Dog> {
    if ready then Some(Dog(Reading, false, true)) else None
  }

  function Do(w: World, s: Step): World
    requires Enabled(w, s)
  {
    match s
    case TreeEmpties => w.(treeEmpty := true)
    case Attach(ready) => w.(dog := Spawned(ready))
    case CheckHealth(p, ready) =>
      if DogRunning(w) then w
      else if !IsTreeRunning(p).No? then w.(dog := Spawned(ready))
      else w.(dog := None)
    case ManagerCrash => CloseWriter(w.(manager := Gone))
    // a guard without a watchdog does nothing; a running tree is left to the watchdog
    case Drop(p) =>
      if w.dog.None? then w.(manager := Gone)
      else if IsTreeRunning(p).No? then w.(manager := Disarming, managerSawEmpty := true)
      else CloseWriter(w.(manager := Gone))
    case Disarm(written) =>
      var w' := if written && w.dog.Some? then SetDog(w, w.dog.value.(disarm := true)) else w;
      CloseWriter(w'.(manager := Awaiting))
    // the watchdog has exited in time, or is killed, or is left to a reaper
    case AwaitEnds(killed) =>
      (if DogRunning(w) && killed then EndDog(w, KilledByManager) else w).(manager := Gone)
    case DogReads(event) =>
      if event.Interrupted? then w
      else if event == Data(true) then EndDog(w, Disarmed)
      else SetDog(w, w.dog.value.(at := StoppingTree))
    // one turn of `stop_managed_tree`; `late` when its deadline has passed
    case DogPolls(p, late) =>
      if !ManagedTreeRunning(p) then EndDog(w, SawTreeEmpty) else if late then EndDog(w, IssuedKill) else w
  }

  predicate Init(w: World) {
    w == World(Guarding, None, w.treeEmpty, false, [])
  }

  ghost predicate IsRun(worlds: seq<World>, steps: seq<Step>) {
    && |worlds| == |steps| + 1
    && Init(worlds[0])
    && forall n | 0 <= n < |steps| :: Enabled(worlds[n], steps[n]) && worlds[n + 1] == Do(worlds[n], steps[n])
  }

  /** A watchdog may end without stopping anything only once the manager knows the tree to be empty. */
  predicate Explained(w: World, how: Ending) {
    match how
    case Disarmed => w.managerSawEmpty
    case KilledByManager => w.managerSawEmpty
    case SawTreeEmpty => w.treeEmpty
    case IssuedKill => true
  }

  ghost predicate Inv(w: World) {
    && (w.managerSawEmpty ==> w.treeEmpty)
    && (w.manager.Disarming? || w.manager.Awaiting? ==> w.managerSawEmpty)
    && (w.dog.Some? ==>
          && (w.dog.value.disarm ==> w.managerSawEmpty)
          && (w.dog.value.writerOpen <==> w.manager.Guarding? || w.manager.Disarming?))
    && (w.dog.Some? && w.dog.value.at.Ended? ==> Explained(w, w.dog.value.at.how))
    && (forall i | 0 <= i < |w.ended| :: Explained(w, w.ended[i]))
  }

  lemma {:induction false} RunKeeps(worlds: seq<World>, steps: seq<Step>, n: nat)
    requires IsRun(worlds, steps) && n < |worlds|
    ensures Inv(worlds[n])
  {
    if n > 0 {
      RunKeeps(worlds, steps, n - 1);
      StepKeeps(worlds[n - 1], steps[n - 1]);
    }
  }

  lemma StepKeeps(w: World, s: Step)
    requires Inv(w) && Enabled(w, s)
    ensures Inv(Do(w, s))
  {
    var w' := Do(w, s);
    assert forall how | Explained(w, how) :: Explained(w', how);
    if s.DogPolls? {
      VerdictsAgreeExactly(s.probe);
    }
  }

  /** A watchdog that was armed ends without running its stop only after the manager had been told that
      the tree was empty; a watchdog that did run it saw the tree empty itself or issued a kill. */
  lemma WatchdogNeverAbandonsTree(worlds: seq<World>, steps: seq<Step>, n: nat, i: nat)
    requires IsRun(worlds, steps) && n < |worlds| && i < |worlds[n].ended|
    ensures Explained(worlds[n], worlds[n].ended[i])
    ensures worlds[n].ended[i].IssuedKill? || worlds[n].treeEmpty
  {
    RunKeeps(worlds, steps, n);
  }

  /** Once the manager is gone, by a crash or by dropping its guard, and had not seen the tree empty,
      a watchdog left behind cannot be disarmed: it finds the end of its pipe, and whatever ends its
      read sends it to stop the tree. */
  lemma LossReachesWatchdog(worlds: seq<World>, steps: seq<Step>, n: nat, event: PipeRead)
    requires IsRun(worlds, steps) && n < |worlds|
    requires worlds[n].manager.Gone? && !worlds[n].managerSawEmpty
    requires worlds[n].dog.Some? && worlds[n].dog.value.at.Reading?
    ensures CanRead(worlds[n].dog.value, EndOfFile)
    ensures CanRead(worlds[n].dog.value, event) && !event.Interrupted? ==>
              Do(worlds[n], DogReads(event)).dog.value.at.StoppingTree?
  {
    RunKeeps(worlds, steps, n);
  }

  /** While the guard is held no end of file and no disarming byte reaches the watchdog: it leaves its
      read only on a read error. */
  lemma GuardHoldsWatchdog(worlds: seq<World>, steps: seq<Step>, n: nat, event: PipeRead)
    requires IsRun(worlds, steps) && n < |worlds|
    requires worlds[n].manager.Guarding? && worlds[n].dog.Some? && worlds[n].dog.value.at.Reading?
    requires CanRead(worlds[n].dog.value, event)
    ensures event.ReadError? || event.Interrupted?
  {
    GuardedDogIsNotDisarmed(worlds, steps, n);
    RunKeeps(worlds, steps, n);
  }

  lemma {:induction false} GuardedDogIsNotDisarmed(worlds: seq<World>, steps: seq<Step>, n: nat)
    requires IsRun(worlds, steps) && n < |worlds|
    ensures worlds[n].manager.Guarding? && worlds[n].dog.Some? ==> !worlds[n].dog.value.disarm
  {
    if n > 0 {
      GuardedDogIsNotDisarmed(worlds, steps, n - 1);
      assert worlds[n] == Do(worlds[n - 1], steps[n - 1]);
    }
  }

  /** `stop_managed_tree`: in bounded time, whatever is answered, it has asked the tree to stop and then seen it
      empty, which ends it at once, or waited for the whole timeout; only a tree not found empty even then is
      killed. */
  method StopManagedTree(tree: System, timeout: nat)
    modifies tree
    ensures tree.asked.Some? && tree.lastAnswer.Some? && (tree.forced <==> tree.lastAnswer != Some(No))
    ensures tree.sawEmpty <==> tree.lastAnswer == Some(No)
    ensures tree.sawEmpty ==> tree.now == tree.emptyAt
    ensures tree.forced ==> tree.forcedAt >= old(tree.now) + timeout
    ensures tree.now <= old(tree.now) + timeout + 50 + tree.slack
  {
    tree.Forget();
    var _ := tree.RequestGracefulStop();
    var empty := tree.AwaitEmptyTree(timeout, false);
    if empty {
      return;
    }
    var running := tree.IsTreeRunning();
    if !running.No? {
      var _ := tree.ForceStop();
    }
  }
}
