/** What a shown size is, in every interleaving: the result of a measurement that succeeded; and what each
    critical section of a sampler does. */
module MemoryMeasured {
  import opened Basics
  import opened Worker
  import opened MemorySampling

  // ---------- the sections of a sampler ----------

  /** The sampler at `k` looks after the pid that is shown. */
  predicate LooksAfterShown(w: World, k: nat) {
    k < |w.samplers| && w.rt.pid == Some(w.samplers[k].child.pid)
  }

  /** The samplers without the one at `k`, in their order. */
  predicate IsWithout(s: seq<Sampler>, k: nat, r: seq<Sampler>) {
    && k < |s| && |r| == |s| - 1
    && (forall i | 0 <= i < k :: r[i] == s[i]) && (forall i | k <= i < |r| :: r[i] == s[i + 1])
  }

  /** A measurement for the shown pid shows its size, or that there is none; the sampler goes to sleep if it is
      to measure again.  A measurement for another pid changes nothing, and its sampler ends. */
  lemma FinishShowsResult(cfg: Config, w: World, k: nat, value: Option<nat>)
    requires Enabled(w, Finish(k, value))
    ensures var w', child, further := Do(cfg, w, Finish(k, value)), w.samplers[k].child, w.samplers[k].further;
            if w.rt.pid == Some(child.pid) then
              && w'.rt == w.rt.(memory := match value case Some(v) => Bytes(v) case None => Unavailable)
              && (if further > 0 then w'.samplers == w.samplers[k := Sampler(child, Sleeping, further - 1)]
                  else IsWithout(w.samplers, k, w'.samplers))
            else
              w'.rt == w.rt && IsWithout(w.samplers, k, w'.samplers)
  {
  }

  /** A refresh thread that wakes up for the shown pid announces its measurement; for another pid it ends. */
  lemma WakeAnnounces(cfg: Config, w: World, k: nat)
    requires Enabled(w, Wake(k))
    ensures var w', child, further := Do(cfg, w, Wake(k)), w.samplers[k].child, w.samplers[k].further;
            if w.rt.pid == Some(child.pid) then
              && w'.rt == w.rt.(memory := Memory.Pending)
              && w'.samplers == w.samplers[k := Sampler(child, Measuring, further)]
            else
              w'.rt == w.rt && IsWithout(w.samplers, k, w'.samplers)
  {
  }

  /** A request by the user announces one measurement of a running tool, and shows nothing for another. */
  lemma RequestAnnounces(cfg: Config, worlds: seq<World>, steps: seq<Step>, n: nat)
    requires IsInterleaving(cfg, worlds, steps) && n < |steps| && steps[n].Request?
    ensures var w, w' := worlds[n], worlds[n + 1];
            if w.rt.state.Running? then
              && w'.rt == w.rt.(memory := Memory.Pending) && |w'.samplers| == |w.samplers| + 1
              && w'.samplers[..|w.samplers|] == w.samplers
              && Last(w'.samplers).phase.Measuring? && Last(w'.samplers).further == 0
              && w.rt.pid == Some(Last(w'.samplers).child.pid)
            else
              w'.rt == w.rt.(memory := Memory.Idle) && w'.samplers == w.samplers
  {
    InterleavingKeeps(cfg, worlds, steps, n);
  }

  /** A child that is shown as running gets a refresh thread for as many measurements as it was to have. */
  lemma StartedChildIsMeasured(cfg: Config, w: World, samples: nat)
    requires Enabled(w, Proceed(samples)) && w.todo[0].MarkRunning?
    ensures var w', child := Do(cfg, w, Proceed(samples)), w.todo[0].child;
            && w'.rt.pid == Some(child.pid) && w'.rt.memory == Memory.Idle && w'.rt.state.Running?
            && w'.samplers == w.samplers + [Sampler(child, Sleeping, samples - 1)]
  {
  }

  // ---------- where a shown size comes from ----------

  /** Step `m` was a measurement of `size` for the pid that was shown. */
  ghost predicate Measured(worlds: seq<World>, steps: seq<Step>, m: int, size: nat) {
    && 0 <= m < |steps| && m < |worlds|
    && steps[m].Finish? && steps[m].value == Some(size) && LooksAfterShown(worlds[m], steps[m].k)
  }

  /** The record has shown `size` for one pid from world `from` to world `to`. */
  ghost predicate Showing(worlds: seq<World>, from: int, to: nat, size: nat)
    requires 0 <= from <= to < |worlds|
  {
    forall j | from <= j <= to ::
      worlds[j].rt.memory == Bytes(size) && worlds[j].rt.pid == worlds[to].rt.pid && worlds[to].rt.pid.Some?
  }

  lemma SizeAppears(cfg: Config, w: World, s: Step, size: nat)
    requires Enabled(w, s) && Do(cfg, w, s).rt.memory == Bytes(size)
    ensures Do(cfg, w, s).rt.pid == w.rt.pid
    ensures w.rt.memory == Bytes(size)
            || (s.Finish? && s.value == Some(size) && LooksAfterShown(w, s.k))
  {
  }

  ghost predicate Explained(worlds: seq<World>, steps: seq<Step>, n: nat, size: nat)
    requires n < |worlds|
  {
    exists m | 0 <= m < n :: Measured(worlds, steps, m, size) && Showing(worlds, m + 1, n, size)
  }

  lemma {:induction false} SizeIsExplained(cfg: Config, worlds: seq<World>, steps: seq<Step>, n: nat, size: nat)
    requires IsInterleaving(cfg, worlds, steps) && n < |worlds| && worlds[n].rt.memory == Bytes(size)
    ensures Explained(worlds, steps, n, size)
  {
    InterleavingKeeps(cfg, worlds, steps, n);
    if n > 0 {
      var w, s := worlds[n - 1], steps[n - 1];
      SizeAppears(cfg, w, s, size);
      if s.Finish? && s.value == Some(size) && LooksAfterShown(w, s.k) {
        assert Measured(worlds, steps, n - 1, size) && Showing(worlds, n - 1 + 1, n, size);
      } else {
        SizeIsExplained(cfg, worlds, steps, n - 1, size);
        var m :| 0 <= m < n - 1 && Measured(worlds, steps, m, size) && Showing(worlds, m + 1, n - 1, size);
        assert Showing(worlds, m + 1, n, size);
      }
    }
  }

  /** Step `m` was a measurement of `size`, by a sampler of the pid that world `n` shows, and no step from there
      to world `n` has changed the memory field. */
  ghost predicate ComesFrom(worlds: seq<World>, steps: seq<Step>, n: nat, size: nat, m: nat) {
    && m < n < |worlds| && m < |steps|
    && steps[m].Finish? && steps[m].value == Some(size) && steps[m].k < |worlds[m].samplers|
    && worlds[n].rt.pid == Some(worlds[m].samplers[steps[m].k].child.pid)
    && forall j | m < j <= n :: worlds[j].rt.memory == Bytes(size)
  }

  /** In every interleaving: a size that is shown was the result of an earlier measurement, by a sampler of the
      pid that is shown, and has been shown ever since. */
  lemma ShownSizeWasMeasured(cfg: Config, worlds: seq<World>, steps: seq<Step>, n: nat, size: nat)
    requires IsInterleaving(cfg, worlds, steps) && n < |worlds| && worlds[n].rt.memory == Bytes(size)
    ensures exists m: nat :: ComesFrom(worlds, steps, n, size, m)
  {
    SizeIsExplained(cfg, worlds, steps, n, size);
    var m: nat :| m < n && Measured(worlds, steps, m, size) && Showing(worlds, m + 1, n, size);
    assert worlds[m + 1].rt.memory == Bytes(size) && worlds[m + 1].rt.pid == worlds[n].rt.pid;
    assert worlds[m + 1] == Do(cfg, worlds[m], steps[m]);
    SizeAppears(cfg, worlds[m], steps[m], size);
    assert ComesFrom(worlds, steps, n, size, m);
  }
}
