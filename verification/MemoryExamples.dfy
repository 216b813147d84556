/** An interleaving in which a reused pid makes the size of a process that is gone pass for that of its
    successor. */
module MemoryExamples {
  import opened Basics
  import opened Worker
  import opened MemorySampling

  ghost predicate Reaches(cfg: Config, w: World) {
    exists worlds, steps :: IsInterleaving(cfg, worlds, steps) && Last(worlds) == w
  }

  lemma Extend(cfg: Config, w: World, s: Step, w': World)
    requires Reaches(cfg, w) && Enabled(w, s) && w' == Do(cfg, w, s)
    ensures Reaches(cfg, w')
  {
    var worlds, steps :| IsInterleaving(cfg, worlds, steps) && Last(worlds) == w;
    var worlds', steps' := worlds + [w'], steps + [s];
    forall i | 0 <= i < |steps'|
      ensures Enabled(worlds'[i], steps'[i]) && worlds'[i + 1] == Do(cfg, worlds'[i], steps'[i])
    {
      if i < |steps| {
        assert worlds'[i] == worlds[i] && worlds'[i + 1] == worlds[i + 1] && steps'[i] == steps[i];
      } else {
        assert worlds'[i] == w && worlds'[i + 1] == w' && steps'[i] == s;
      }
    }
    assert IsInterleaving(cfg, worlds', steps') && Last(worlds') == w';
  }

  /** The worker's next section, when it starts no child. */
  lemma ExtendSection(cfg: Config, w: World, w': World)
    requires Reaches(cfg, w) && w.todo != [] && !w.todo[0].MarkRunning?
    requires w' == w.(rt := Apply(w.rt, w.todo[0]), todo := w.todo[1..], owner := OwnerAfter(w.owner, w.todo[0]))
    ensures Reaches(cfg, w')
  {
    Extend(cfg, w, Proceed(1), w');
  }

  function Eager(): Config {
    Config(true, true, 0, 3, 60_000)
  }

  const FIRST: Child := Child(0, 7)
  const SECOND: Child := Child(1, 7)

  function Idling(now: nat): World {
    var s := InitialState(Eager(), now);
    World(s.rt, [], s, [], None, None, {})
  }

  function FirstInputs(): Inputs {
    Inputs(Tick, 0, ObservedExit, Alive, 0, 0, Started(7, 0), 0)
  }

  function SecondInputs(): Inputs {
    Inputs(Tick, 1_000, ObservedExit, Gone, 1_000, 1_000, Started(7, 1_000), 1_000)
  }

  /** The worker after it has started the first child, and after the second has replaced it. */
  function Up(): State {
    State(Locals(Some(FIRST), true, None, [], 1), Runtime(Running, Some(7), Idle, 0, Some(0)),
          History(1, 0, 0, 0, [], 0, {}, {}), 0, false)
  }

  function Replaced(): State {
    State(Locals(Some(SECOND), true, None, [1_000], 2), Runtime(Running, Some(7), Idle, 1, Some(1_000)),
          History(2, 0, 0, 1, [1_000], 0, {0}, {}), 1_000, false)
  }

  lemma FirstIteration()
    ensures var s := InitialState(Eager(), 0);
            Next(Eager(), s, FirstInputs()) == Up()
            && Iterate(Eager(), s.l, s.rt, s.h, FirstInputs()).sections == [MarkStarting, MarkRunning(FIRST, 0)]
  {
  }

  lemma SecondIteration()
    ensures var s := Up();
            Next(Eager(), s, SecondInputs()) == Replaced()
            && Iterate(Eager(), s.l, s.rt, s.h, SecondInputs()).sections ==
               [ChildGone(Restarting, true), MarkStarting, MarkRunning(SECOND, 1_000)]
  {
  }

  /** The first child runs, and the user has asked for its size. */
  function Measured(): World {
    World(Up().rt.(memory := Pending), [], Up(), [Sampler(FIRST, Sleeping, 0), Sampler(FIRST, Measuring, 0)],
          Some(FIRST), None, {FIRST})
  }

  lemma MeasuredIsReached()
    ensures Reaches(Eager(), Measured())
  {
    var cfg, w0 := Eager(), Idling(0);
    var worlds, steps: seq<Step> := [w0], [];
    assert IsInterleaving(cfg, worlds, steps) && Last(worlds) == w0;
    FirstIteration();
    var w1 := w0.(worker := Up(), todo := [MarkStarting, MarkRunning(FIRST, 0)]);
    Extend(cfg, w0, Begin(FirstInputs()), w1);
    var w2 := w1.(rt := w1.rt.(state := Starting), todo := [MarkRunning(FIRST, 0)]);
    ExtendSection(cfg, w1, w2);
    var w3 := World(Up().rt, [], Up(), [Sampler(FIRST, Sleeping, 0)], Some(FIRST), None, {FIRST});
    Extend(cfg, w2, Proceed(1), w3);
    Extend(cfg, w3, Request, Measured());
  }

  /** The first child has exited and the second runs, under the same pid. */
  function Reused(): World {
    World(Replaced().rt, [], Replaced(),
          [Sampler(FIRST, Sleeping, 0), Sampler(FIRST, Measuring, 0), Sampler(SECOND, Sleeping, 0)],
          Some(SECOND), None, {FIRST, SECOND})
  }

  lemma ReusedIsReached()
    ensures Reaches(Eager(), Reused())
  {
    var cfg, w0 := Eager(), Measured();
    MeasuredIsReached();
    SecondIteration();
    var w1 := w0.(worker := Replaced(),
      todo := [ChildGone(Restarting, true), MarkStarting, MarkRunning(SECOND, 1_000)]);
    Extend(cfg, w0, Begin(SecondInputs()), w1);
    var w2 := w1.(rt := Runtime(Restarting, None, Idle, 1, None), owner := None,
                  todo := [MarkStarting, MarkRunning(SECOND, 1_000)]);
    ExtendSection(cfg, w1, w2);
    var w3 := w2.(rt := Runtime(Starting, None, Idle, 1, None), todo := [MarkRunning(SECOND, 1_000)]);
    ExtendSection(cfg, w2, w3);
    Extend(cfg, w3, Proceed(1), Reused());
  }

  /** So the size measured for a process that is gone can be shown for its successor. */
  lemma StaleSizeHappens(size: nat)
    ensures exists w ::
              && Reaches(Eager(), w)
              && w.rt.memory == Bytes(size) && w.origin == Some(FIRST) && w.owner == Some(SECOND)
  {
    ReusedIsReached();
    var w := Reused();
    var w' := w.(rt := w.rt.(memory := Bytes(size)), origin := Some(FIRST), samplers := Remove(w.samplers, 1));
    Extend(Eager(), w, Finish(1, Some(size)), w');
  }
}
