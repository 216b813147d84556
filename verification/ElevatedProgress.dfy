/**
 What one pass of the helper achieves: whatever the proxies do meanwhile, everything issued before it began
 has been executed when it ends, save for commands whose own claim failed.
 */
module ElevatedProgress {
  import opened Basics
  import opened ElevatedProtocol
  import opened ElevatedBase
  import opened ElevatedHonesty
  import opened ElevatedPass

  predicate InPass(at: HelperPoint) {
    at.Passing? || at.Holding? || at.Finished?
  }

  ghost predicate StaysInPass(w: World, s: Step) {
    !s.HelperCrash? && !s.HelperEndPass? && !Loses(w, s)
  }

  ghost predicate IsPassStep(w: World, s: Step, w': World) {
    Enabled(w, s) && w' == Do(w, s) && StaysInPass(w, s)
  }

  /** A stretch of a run, from anywhere, within one pass. */
  ghost predicate IsPassStretch(worlds: seq<World>, steps: seq<Step>) {
    && |worlds| == |steps| + 1
    && forall i | 0 <= i < |steps| :: IsPassStep(worlds[i], steps[i], worlds[i + 1])
  }

  /** The claim of `k` failed somewhere between `from` and `to`. */
  ghost predicate ClaimFailed(worlds: seq<World>, steps: seq<Step>, from: nat, to: nat, k: Ticket) {
    exists i | from <= i < to :: FailsToClaim(worlds, steps, i, k)
  }

  ghost predicate FailsToClaim(worlds: seq<World>, steps: seq<Step>, i: int, k: Ticket) {
    0 <= i < |steps| && i < |worlds| && Skips(worlds[i], steps[i], k)
  }

  /** The pass has executed `k` or still has it before it. */
  ghost predicate Seen(w: World, k: Ticket) {
    k in Done(w.log) || k in Unhandled(w.helper.at)
  }

  // ---------- one step of the pass ----------

  lemma HandleSees(w: World, k: Ticket)
    requires FilesInv(w) && AcksHonest(w) && w.helper.at.Holding? && w.helper.at.current in w.claimed
    requires k.tool in w.managed && Seen(w, k)
    ensures Seen(Handle(w), k) && InPass(Handle(w).helper.at)
  {
    if Executes(w) {
      DoneAppend(w.log, Last(Handle(w).log));
    } else {
      DroppedHasRun(w);
    }
  }

  lemma SkipSees(w: World, s: Step, k: Ticket)
    requires FilesInv(w) && HelperEnabled(w, s) && s.HelperSkip? && Seen(w, k)
    ensures Seen(HelperDo(w, s), k) || k == w.helper.at.todo[0]
    ensures InPass(HelperDo(w, s).helper.at)
  {
    SplitTodo(w.helper.at.todo);
  }

  lemma HelperSees(w: World, s: Step, k: Ticket)
    requires FilesInv(w) && AcksHonest(w) && InPass(w.helper.at) && HelperEnabled(w, s) && StaysInPass(w, s)
    requires k.tool in w.managed && Seen(w, k)
    ensures var w' := HelperDo(w, s);
            InPass(w'.helper.at) && (Seen(w', k) || (s.HelperSkip? && w.helper.at.todo[0] == k))
  {
    match s
    case HelperClaim => ClaimKeepsFiles(w);
    case HelperSkip => SkipSees(w, s, k);
    case HelperHandle => HandleSees(w, k);
    case HelperRemove =>
    case _ => assert false;
  }

  /** What the pass keeps for `k`, unless its claim fails. */
  ghost predicate Carries(w: World, k: Ticket) {
    InPass(w.helper.at) && k.tool in w.managed && Seen(w, k)
  }

  ghost predicate Skips(w: World, s: Step, k: Ticket) {
    s.HelperSkip? && w.helper.at.Passing? && w.helper.at.todo != [] && w.helper.at.todo[0] == k
  }

  ghost predicate Good(w: World) {
    Base(w) && Kept(w)
  }

  lemma StepSees(w: World, s: Step, w': World, k: Ticket)
    requires Good(w) && IsPassStep(w, s, w') && Carries(w, k)
    ensures Carries(w', k) || Skips(w, s, k)
  {
    if HelperEnabled(w, s) {
      HelperSees(w, s, k);
      HelperLeavesProxies(w, s);
    } else {
      var effect := ProxyWrites(w, s);
      WriteGrows(w, effect);
    }
  }

  lemma StepStaysGood(w: World, s: Step, w': World)
    requires Good(w) && IsPassStep(w, s, w')
    ensures Good(w')
  {
    StepKeepsBase(w, s);
    StepKeeps(w, s);
  }

  // ---------- the whole pass ----------

  lemma {:induction false} StretchKeeps(worlds: seq<World>, steps: seq<Step>, n: nat)
    requires IsPassStretch(worlds, steps) && n < |worlds| && Good(worlds[0])
    ensures Good(worlds[n])
  {
    if n > 0 {
      StretchKeeps(worlds, steps, n - 1);
      assert IsPassStep(worlds[n - 1], steps[n - 1], worlds[n - 1 + 1]);
      StepStaysGood(worlds[n - 1], steps[n - 1], worlds[n]);
    }
  }

  ghost predicate CarriesOn(worlds: seq<World>, steps: seq<Step>, i: nat, k: Ticket)
    requires i < |steps| && |worlds| == |steps| + 1
  {
    Carries(worlds[i], k) ==> Carries(worlds[i + 1], k) || FailsToClaim(worlds, steps, i, k)
  }

  lemma StretchCarriesOn(worlds: seq<World>, steps: seq<Step>, i: nat, k: Ticket)
    requires IsPassStretch(worlds, steps) && i < |steps| && Good(worlds[0])
    ensures CarriesOn(worlds, steps, i, k)
  {
    StretchKeeps(worlds, steps, i);
    assert IsPassStep(worlds[i], steps[i], worlds[i + 1]);
    if Carries(worlds[i], k) {
      StepSees(worlds[i], steps[i], worlds[i + 1], k);
    }
  }

  lemma {:induction false} CarriedAlong(worlds: seq<World>, steps: seq<Step>, n: nat, k: Ticket)
    requires |worlds| == |steps| + 1 && n < |worlds| && Carries(worlds[0], k)
    requires forall i | 0 <= i < |steps| :: CarriesOn(worlds, steps, i, k)
    ensures Carries(worlds[n], k) || ClaimFailed(worlds, steps, 0, n, k)
  {
    if n > 0 {
      CarriedAlong(worlds, steps, n - 1, k);
      assert CarriesOn(worlds, steps, n - 1, k);
      if !Carries(worlds[n], k) && !Carries(worlds[n - 1], k) {
        var i :| 0 <= i < n - 1 && FailsToClaim(worlds, steps, i, k);
      }
    }
  }

  lemma StretchSees(worlds: seq<World>, steps: seq<Step>, k: Ticket)
    requires IsPassStretch(worlds, steps) && Good(worlds[0]) && Carries(worlds[0], k)
    ensures Carries(worlds[|steps|], k) || ClaimFailed(worlds, steps, 0, |steps|, k)
  {
    forall i | 0 <= i < |steps|
      ensures CarriesOn(worlds, steps, i, k)
    {
      StretchCarriesOn(worlds, steps, i, k);
    }
    CarriedAlong(worlds, steps, |steps|, k);
  }

  /** A pass from a good world that still carries `k` and has reached its end has executed it. */
  lemma StretchExecutes(worlds: seq<World>, steps: seq<Step>, k: Ticket)
    requires IsPassStretch(worlds, steps) && Good(worlds[0]) && Carries(worlds[0], k)
    requires worlds[|steps|].helper.at == Passing([])
    ensures k in Done(worlds[|steps|].log) || ClaimFailed(worlds, steps, 0, |steps|, k)
  {
    StretchSees(worlds, steps, k);
  }

  lemma ListedIsSeen(w: World, s: Step, k: Ticket)
    requires Base(w) && Kept(w) && HelperEnabled(w, s) && s.HelperList?
    requires k in w.issued && k.tool in w.managed
    ensures Seen(HelperDo(w, s), k)
  {
    assert k !in w.claimed;
    assert k in w.commands ==> k in s.listing;
  }

  lemma RunPassStep(worlds: seq<World>, steps: seq<Step>, j: nat)
    requires IsLosslessRun(worlds, steps) && j < |steps| && !steps[j].HelperCrash? && !steps[j].HelperEndPass?
    ensures IsPassStep(worlds[j], steps[j], worlds[j + 1])
  {
  }

  lemma StretchOf(worlds: seq<World>, steps: seq<Step>, from: nat, to: nat)
    requires IsLosslessRun(worlds, steps) && from <= to < |worlds|
    requires forall i | from <= i < to :: !steps[i].HelperCrash? && !steps[i].HelperEndPass?
    ensures IsPassStretch(worlds[from..to + 1], steps[from..to])
  {
    forall j | from <= j < to
      ensures IsPassStep(worlds[j], steps[j], worlds[j + 1])
    {
      RunPassStep(worlds, steps, j);
    }
    SliceStretch(worlds, steps, from, to);
  }

  lemma SliceStretch(worlds: seq<World>, steps: seq<Step>, from: nat, to: nat)
    requires from <= to < |worlds| && to <= |steps|
    requires forall j | from <= j < to :: IsPassStep(worlds[j], steps[j], worlds[j + 1])
    ensures IsPassStretch(worlds[from..to + 1], steps[from..to])
  {
    var stretch, within := worlds[from..to + 1], steps[from..to];
    forall i | 0 <= i < |within|
      ensures IsPassStep(stretch[i], within[i], stretch[i + 1])
    {
      assert IsPassStep(worlds[from + i], steps[from + i], worlds[from + i + 1]);
    }
  }

  lemma PassBegins(worlds: seq<World>, steps: seq<Step>, a: nat, k: Ticket)
    requires IsLosslessRun(worlds, steps) && a < |steps| && steps[a].HelperList?
    requires k in worlds[a].issued && k.tool in worlds[a].managed
    ensures Good(worlds[a + 1]) && Carries(worlds[a + 1], k)
  {
    RunKeeps(worlds, steps, a);
    RunKeeps(worlds, steps, a + 1);
    var w, s := worlds[a], steps[a];
    assert HelperEnabled(w, s) && worlds[a + 1] == HelperDo(w, s);
    ListedIsSeen(w, s, k);
    HelperLeavesProxies(w, s);
  }

  lemma SliceFailed(worlds: seq<World>, steps: seq<Step>, from: nat, to: nat, k: Ticket)
    requires from <= to < |worlds| && to <= |steps|
    requires ClaimFailed(worlds[from..to + 1], steps[from..to], 0, to - from, k)
    ensures ClaimFailed(worlds, steps, from, to, k)
  {
    var i :| 0 <= i < to - from && FailsToClaim(worlds[from..to + 1], steps[from..to], i, k);
    assert FailsToClaim(worlds, steps, from + i, k);
  }

  lemma SliceExecutes(worlds: seq<World>, steps: seq<Step>, from: nat, to: nat, k: Ticket)
    requires from <= to < |worlds| && to <= |steps| && IsPassStretch(worlds[from..to + 1], steps[from..to])
    requires Good(worlds[from]) && Carries(worlds[from], k) && worlds[to].helper.at == Passing([])
    ensures k in Done(worlds[to].log) || ClaimFailed(worlds, steps, from, to, k)
  {
    var stretch, within := worlds[from..to + 1], steps[from..to];
    assert stretch[0] == worlds[from] && stretch[|within|] == worlds[to];
    StretchExecutes(stretch, within, k);
    if ClaimFailed(stretch, within, 0, |within|, k) {
      SliceFailed(worlds, steps, from, to, k);
    }
  }

  /** In every run in which no failed claim loses anything: when a pass has reached its end, everything issued
      for a managed tool before it began has been executed, unless its own claim failed in this pass.  The
      proxies may have done anything meanwhile. */
  lemma PassExecutesAll(worlds: seq<World>, steps: seq<Step>, a: nat, b: nat, k: Ticket)
    requires IsLosslessRun(worlds, steps) && a < b < |worlds| && steps[a].HelperList?
    requires forall i | a < i < b :: !steps[i].HelperCrash? && !steps[i].HelperEndPass?
    requires worlds[b].helper.at == Passing([])
    requires k in worlds[a].issued && k.tool in worlds[a].managed
    ensures k in Done(worlds[b].log) || ClaimFailed(worlds, steps, a + 1, b, k)
  {
    PassBegins(worlds, steps, a, k);
    StretchOf(worlds, steps, a + 1, b);
    SliceExecutes(worlds, steps, a + 1, b, k);
  }

  // ---------- a pass that nobody disturbs ----------

  ghost predicate NoneFails(steps: seq<Step>) {
    forall s | s in steps :: !s.HelperSkip?
  }

  lemma Prepend(w: World, s: Step, worlds: seq<World>, steps: seq<Step>)
    requires IsPassStretch(worlds, steps) && NoneFails(steps) && !s.HelperSkip?
    requires Enabled(w, s) && worlds[0] == Do(w, s) && StaysInPass(w, s)
    ensures IsPassStretch([w] + worlds, [s] + steps) && NoneFails([s] + steps)
    ensures Last([w] + worlds) == Last(worlds)
  {
    var worlds', steps' := [w] + worlds, [s] + steps;
    forall i | 0 <= i < |steps'|
      ensures IsPassStep(worlds'[i], steps'[i], worlds'[i + 1])
    {
      assert i > 0 ==> IsPassStep(worlds[i - 1], steps[i - 1], worlds[i - 1 + 1]);
    }
  }

  lemma CompleteStretch(w: World, worlds: seq<World>, steps: seq<Step>) returns (worlds': seq<World>, steps': seq<Step>)
    requires w.helper.at.Holding? && w.helper.at.current in w.claimed
    requires IsPassStretch(worlds, steps) && NoneFails(steps) && worlds[0] == Complete(w)
    ensures IsPassStretch(worlds', steps') && NoneFails(steps')
    ensures worlds'[0] == w && Last(worlds') == Last(worlds)
  {
    var handled := Handle(w);
    worlds', steps' := worlds, steps;
    if handled.helper.at.Finished? {
      Prepend(handled, HelperRemove, worlds', steps');
      worlds', steps' := [handled] + worlds', [HelperRemove] + steps';
    }
    Prepend(w, HelperHandle, worlds', steps');
    worlds', steps' := [w] + worlds', [HelperHandle] + steps';
  }

  /** The undisturbed pass is such a stretch. */
  lemma {:induction false} QuietStretch(w: World) returns (worlds: seq<World>, steps: seq<Step>)
    requires w.helper.at.Passing?
    ensures IsPassStretch(worlds, steps) && NoneFails(steps)
    ensures worlds[0] == w && Last(worlds) == Pass(w)
    decreases |w.helper.at.todo|
  {
    if w.helper.at.todo == [] {
      worlds, steps := [w], [];
    } else {
      PassOneFrame(w);
      worlds, steps := QuietStretch(PassOne(w));
      var claimed := Claim(w);
      if claimed.helper.at.Holding? {
        worlds, steps := CompleteStretch(claimed, worlds, steps);
      }
      Prepend(w, HelperClaim, worlds, steps);
      worlds, steps := [w] + worlds, [HelperClaim] + steps;
    }
  }

  lemma QuietPassKeeps(w: World)
    requires Good(w) && w.helper.at.Passing?
    ensures Good(Pass(w))
  {
    var worlds, steps := QuietStretch(w);
    StretchKeeps(worlds, steps, |steps|);
  }

  lemma {:induction false} PassDrains(w: World)
    requires w.helper.at.Passing? && w.commands.Keys <= Names(w.helper.at.todo)
    ensures Pass(w).commands.Keys == {}
    decreases |w.helper.at.todo|
  {
    var todo := w.helper.at.todo;
    if todo != [] {
      PassOneFrame(w);
      assert todo == [todo[0]] + todo[1..];
      PassDrains(PassOne(w));
    }
  }

  /** In particular, one pass that nobody disturbs leaves no command file behind, and everything ever issued
      for a managed tool has then been executed. */
  lemma QuietPassExecutesAll(worlds: seq<World>, steps: seq<Step>, n: nat, listing: seq<Ticket>, k: Ticket)
    requires IsLosslessRun(worlds, steps) && n < |worlds| && HelperEnabled(worlds[n], HelperList(listing))
    requires k in worlds[n].issued && k.tool in worlds[n].managed
    ensures Pass(HelperDo(worlds[n], HelperList(listing))).commands.Keys == {}
    ensures k in Done(Pass(HelperDo(worlds[n], HelperList(listing))).log)
  {
    RunKeeps(worlds, steps, n);
    var w := HelperDo(worlds[n], HelperList(listing));
    HelperKeepsBase(worlds[n], HelperList(listing));
    HelperKeeps(worlds[n], HelperList(listing));
    HelperLeavesProxies(worlds[n], HelperList(listing));
    ListedIsSeen(worlds[n], HelperList(listing), k);
    var stretch, within := QuietStretch(w);
    PassFrame(w);
    StretchExecutes(stretch, within, k);
    PassDrains(w);
  }
}
