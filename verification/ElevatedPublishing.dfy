/** What the helper publishes, and when, in every run: all it holds acknowledged, for every managed tool. */
module ElevatedPublishing {
  import opened Basics
  import opened ElevatedProtocol
  import opened ElevatedBase
  import opened ElevatedProgress

  /** The state file of `t` says what the helper holds acknowledged, and who wrote it. */
  ghost predicate IsPublished(w: World, t: ToolKey) {
    && t in w.states
    && w.states[t].acknowledged == Acked(w.helper, t) && w.states[t].helperStarted == w.helper.started
  }

  ghost predicate AllBut(w: World, unpublished: seq<ToolKey>) {
    forall t | t in w.managed && t !in unpublished :: IsPublished(w, t)
  }

  /** Nothing was executed since the last publication, or it is still to be published. */
  ghost predicate UpToDate(w: World) {
    match w.helper.at
    case Idle => AllBut(w, [])
    case Passing(_) => w.helper.changed || AllBut(w, [])
    case Holding(_, _) => w.helper.changed || AllBut(w, [])
    case Finished(_, _) => w.helper.changed
    case Publishing(unpublished) => AllBut(w, unpublished)
    case Replacing(unpublished) => AllBut(w, unpublished)
    case _ => false
  }

  // ---------- steps ----------

  lemma ClaimKeepsUpToDate(w: World)
    requires UpToDate(w) && w.helper.at.Passing? && w.helper.at.todo != []
    ensures UpToDate(Claim(w))
  {
  }

  lemma HandleKeepsUpToDate(w: World)
    requires UpToDate(w) && w.helper.at.Holding? && w.helper.at.current in w.claimed
    ensures UpToDate(Handle(w))
  {
  }

  lemma RemoveKeepsUpToDate(w: World)
    requires UpToDate(w) && w.helper.at.Finished?
    ensures UpToDate(Remove(w))
  {
  }

  lemma UnlinkKeepsUpToDate(w: World, s: Step)
    requires UpToDate(w) && HelperEnabled(w, s) && s.HelperUnlink?
    ensures UpToDate(HelperDo(w, s))
  {
  }

  lemma RenameKeepsUpToDate(w: World, s: Step)
    requires UpToDate(w) && HelperEnabled(w, s) && s.HelperRename?
    ensures UpToDate(HelperDo(w, s))
  {
    var w', unpublished := HelperDo(w, s), w.helper.at.unpublished;
    assert unpublished == [unpublished[0]] + unpublished[1..];
    assert IsPublished(w', unpublished[0]);
    forall t | t in w.managed && t !in unpublished
      ensures IsPublished(w', t)
    {
      assert IsPublished(w, t);
    }
  }

  lemma PassStepsKeepUpToDate(w: World, s: Step)
    requires UpToDate(w) && HelperEnabled(w, s) && (s.HelperList? || s.HelperSkip? || s.HelperEndPass?)
    ensures UpToDate(HelperDo(w, s))
  {
  }

  lemma HelperKeepsUpToDate(w: World, s: Step)
    requires UpToDate(w) && HelperEnabled(w, s) && !s.HelperCrash?
    ensures UpToDate(HelperDo(w, s))
  {
    match s
    case HelperClaim => ClaimKeepsUpToDate(w);
    case HelperHandle => HandleKeepsUpToDate(w);
    case HelperRemove => RemoveKeepsUpToDate(w);
    case HelperUnlink => UnlinkKeepsUpToDate(w, s);
    case HelperRename(_) => RenameKeepsUpToDate(w, s);
    case _ => PassStepsKeepUpToDate(w, s);
  }

  lemma StepKeepsUpToDate(w: World, s: Step)
    requires Base(w) && UpToDate(w) && Enabled(w, s) && !s.HelperCrash?
    ensures UpToDate(Do(w, s))
  {
    if HelperEnabled(w, s) {
      HelperKeepsUpToDate(w, s);
    } else {
      var effect := ProxyWrites(w, s);
      WriteGrows(w, effect);
    }
  }

  ghost predicate NoCrash(steps: seq<Step>, from: nat, to: nat) {
    forall i | from <= i < to && i < |steps| :: !steps[i].HelperCrash?
  }

  lemma {:induction false} RunKeepsUpToDate(worlds: seq<World>, steps: seq<Step>, a: nat, n: nat)
    requires IsRun(worlds, steps) && a <= n < |worlds| && UpToDate(worlds[a]) && NoCrash(steps, a, n)
    ensures UpToDate(worlds[n])
    decreases n
  {
    if a < n {
      RunKeepsUpToDate(worlds, steps, a, n - 1);
      RunKeepsBase(worlds, steps, n - 1);
      StepKeepsUpToDate(worlds[n - 1], steps[n - 1]);
    }
  }

  // ---------- every run ----------

  /** Once a helper has set out to publish, whenever it is idle again every managed tool has a state file with
      exactly what the helper holds acknowledged for it, under this helper's name. */
  lemma PublicationReachesAll(worlds: seq<World>, steps: seq<Step>, a: nat, n: nat, t: ToolKey)
    requires IsRun(worlds, steps) && a < n < |worlds| && steps[a].HelperEndPass? && steps[a].publish
    requires NoCrash(steps, a + 1, n) && worlds[n].helper.at.Idle? && t in worlds[n].managed
    ensures var w := worlds[n];
            && t in w.states && w.states[t].helperStarted == w.helper.started
            && w.states[t].acknowledged == (if t in w.helper.acknowledged then w.helper.acknowledged[t] else 0)
  {
    PublishingBegins(worlds, steps, a);
    RunKeepsUpToDate(worlds, steps, a + 1, n);
    assert IsPublished(worlds[n], t);
  }

  lemma PublishingBegins(worlds: seq<World>, steps: seq<Step>, a: nat)
    requires IsRun(worlds, steps) && a < |steps| && steps[a].HelperEndPass? && steps[a].publish
    ensures UpToDate(worlds[a + 1])
  {
    var w, s := worlds[a], steps[a];
    assert HelperEnabled(w, s) && worlds[a + 1] == HelperDo(w, s);
    assert forall t | t in w.managed :: t in s.order;
  }

  // ---------- from the command file to the acknowledgement ----------

  /** The pass has acknowledged `k` or still has it before it. */
  ghost predicate Covered(w: World, k: Ticket) {
    && InPass(w.helper.at) && k.tool in w.managed
    && (k in Unhandled(w.helper.at) || k.id <= Acked(w.helper, k.tool))
  }

  lemma HandleCovers(w: World, k: Ticket)
    requires Covered(w, k) && w.helper.at.Holding? && w.helper.at.current in w.claimed
    ensures Covered(Handle(w), k)
  {
  }

  lemma SkipCovers(w: World, s: Step, k: Ticket)
    requires FilesInv(w) && Covered(w, k) && HelperEnabled(w, s) && s.HelperSkip?
    ensures Covered(HelperDo(w, s), k) || Skips(w, s, k)
  {
    SplitTodo(w.helper.at.todo);
  }

  lemma ClaimCovers(w: World, k: Ticket)
    requires FilesInv(w) && Covered(w, k) && w.helper.at.Passing? && w.helper.at.todo != []
    ensures Covered(Claim(w), k)
  {
    ClaimKeepsFiles(w);
  }

  lemma HelperCovers(w: World, s: Step, k: Ticket)
    requires FilesInv(w) && Covered(w, k) && HelperEnabled(w, s) && !s.HelperCrash? && !s.HelperEndPass?
    ensures Covered(HelperDo(w, s), k) || Skips(w, s, k)
  {
    match s
    case HelperClaim => ClaimCovers(w, k);
    case HelperSkip => SkipCovers(w, s, k);
    case HelperHandle => HandleCovers(w, k);
    case HelperRemove =>
    case _ => assert false;
  }

  lemma StepCovers(w: World, s: Step, k: Ticket)
    requires Base(w) && Covered(w, k) && Enabled(w, s) && !s.HelperCrash? && !s.HelperEndPass?
    ensures Covered(Do(w, s), k) || Skips(w, s, k)
  {
    if HelperEnabled(w, s) {
      HelperCovers(w, s, k);
      HelperLeavesProxies(w, s);
    } else {
      var effect := ProxyWrites(w, s);
      WriteGrows(w, effect);
    }
  }

  ghost predicate WithinPass(steps: seq<Step>, from: nat, to: nat) {
    forall i | from <= i < to && i < |steps| :: !steps[i].HelperCrash? && !steps[i].HelperEndPass?
  }

  lemma RunStepCovers(worlds: seq<World>, steps: seq<Step>, n: nat, k: Ticket)
    requires IsRun(worlds, steps) && n < |steps| && WithinPass(steps, n, n + 1) && Covered(worlds[n], k)
    ensures Covered(worlds[n + 1], k) || FailsToClaim(worlds, steps, n, k)
  {
    RunKeepsBase(worlds, steps, n);
    StepCovers(worlds[n], steps[n], k);
  }

  lemma {:induction false} RunCovers(worlds: seq<World>, steps: seq<Step>, a: nat, n: nat, k: Ticket)
    requires IsRun(worlds, steps) && a <= n < |worlds| && WithinPass(steps, a, n) && Covered(worlds[a], k)
    ensures Covered(worlds[n], k) || ClaimFailed(worlds, steps, a, n, k)
    decreases n
  {
    if a < n {
      RunCovers(worlds, steps, a, n - 1, k);
      if Covered(worlds[n - 1], k) {
        RunStepCovers(worlds, steps, n - 1, k);
      } else {
        var i :| a <= i < n - 1 && FailsToClaim(worlds, steps, i, k);
      }
    }
  }

  lemma ListingCovers(worlds: seq<World>, steps: seq<Step>, a: nat, k: Ticket)
    requires IsRun(worlds, steps) && a < |steps| && steps[a].HelperList?
    requires k in worlds[a].commands && k.tool in worlds[a].managed
    ensures Covered(worlds[a + 1], k)
  {
    var w, s := worlds[a], steps[a];
    assert HelperEnabled(w, s) && worlds[a + 1] == HelperDo(w, s);
    assert k in s.listing;
  }

  /** In every run: a command file of a managed tool that a pass has listed is acknowledged to the proxies when
      the pass has been published, unless its claim failed. */
  lemma ListedIsAcknowledged(worlds: seq<World>, steps: seq<Step>, a: nat, b: nat, c: nat, k: Ticket)
    requires IsRun(worlds, steps) && a < b < c < |worlds| && steps[a].HelperList?
    requires k in worlds[a].commands && k.tool in worlds[a].managed
    requires WithinPass(steps, a + 1, b) && steps[b].HelperEndPass? && steps[b].publish
    requires AtPublication(worlds, steps, b, c)
    ensures ClaimFailed(worlds, steps, a + 1, b, k)
            || (k.tool in worlds[c].states && k.id <= worlds[c].states[k.tool].acknowledged)
  {
    ListingCovers(worlds, steps, a, k);
    RunCovers(worlds, steps, a + 1, b, k);
    if Covered(worlds[b], k) {
      EndedPass(worlds[b], steps[b], worlds[b + 1], k);
      AcksStay(worlds, steps, b + 1, c, k.tool);
      PublicationReachesAll(worlds, steps, b, c, k.tool);
    }
  }

  lemma EndedPass(w: World, s: Step, w': World, k: Ticket)
    requires Covered(w, k) && Enabled(w, s) && s.HelperEndPass? && s.publish && w' == Do(w, s)
    ensures k.id <= Acked(w'.helper, k.tool) && w'.helper.at.Publishing? && k.tool in w'.managed
  {
    assert HelperEnabled(w, s);
  }

  /** Between `b` and `c` the helper publishes what its pass came to, and is then idle. */
  ghost predicate AtPublication(worlds: seq<World>, steps: seq<Step>, b: nat, c: nat)
    requires b < c < |worlds|
  {
    worlds[c].helper.at.Idle? && NoCrash(steps, b + 1, c)
  }

  lemma StepKeepsAcks(w: World, s: Step, tool: ToolKey)
    requires Base(w) && Enabled(w, s) && !s.HelperCrash? && Loaded(w.helper.at)
    ensures var w' := Do(w, s);
            Loaded(w'.helper.at) && Acked(w.helper, tool) <= Acked(w'.helper, tool) && w'.managed == w.managed
  {
    if HelperEnabled(w, s) {
      HelperKeepsAcks(w, s, tool);
      HelperLeavesProxies(w, s);
    } else {
      var effect := ProxyWrites(w, s);
      WriteGrows(w, effect);
    }
  }

  lemma FileStepsRaiseAcks(w: World, tool: ToolKey)
    ensures w.helper.at.Passing? && w.helper.at.todo != [] ==>
              Claim(w).helper.acknowledged == w.helper.acknowledged && Loaded(Claim(w).helper.at)
    ensures w.helper.at.Holding? && w.helper.at.current in w.claimed ==>
              Acked(w.helper, tool) <= Acked(Handle(w).helper, tool) && Loaded(Handle(w).helper.at)
  {
  }

  lemma HelperKeepsAcks(w: World, s: Step, tool: ToolKey)
    requires HelperEnabled(w, s) && !s.HelperCrash? && Loaded(w.helper.at)
    ensures Loaded(HelperDo(w, s).helper.at) && Acked(w.helper, tool) <= Acked(HelperDo(w, s).helper, tool)
  {
    FileStepsRaiseAcks(w, tool);
    match s
    case HelperList(_) =>
    case HelperClaim =>
    case HelperSkip =>
    case HelperHandle =>
    case HelperRemove =>
    case HelperEndPass(_, _) =>
    case HelperUnlink =>
    case HelperRename(_) =>
    case _ => assert false;
  }

  lemma {:induction false} AcksStay(worlds: seq<World>, steps: seq<Step>, a: nat, n: nat, tool: ToolKey)
    requires IsRun(worlds, steps) && a <= n < |worlds| && NoCrash(steps, a, n) && Loaded(worlds[a].helper.at)
    ensures Loaded(worlds[n].helper.at) && worlds[n].managed == worlds[a].managed
    ensures Acked(worlds[a].helper, tool) <= Acked(worlds[n].helper, tool)
    decreases n
  {
    if a < n {
      AcksStay(worlds, steps, a, n - 1, tool);
      RunKeepsBase(worlds, steps, n - 1);
      StepKeepsAcks(worlds[n - 1], steps[n - 1], tool);
    }
  }

  // ---------- what has to be published ----------

  ghost predicate Noted(w: World, log: seq<Execution>) {
    InPass(w.helper.at) && log <= w.log && (w.helper.changed <==> w.log != log)
  }

  lemma StepNotes(w: World, s: Step, log: seq<Execution>)
    requires Base(w) && Noted(w, log) && Enabled(w, s) && !s.HelperCrash? && !s.HelperEndPass?
    ensures Noted(Do(w, s), log)
  {
    if HelperEnabled(w, s) {
      HelperNotes(w, s, log);
    } else {
      var effect := ProxyWrites(w, s);
      WriteGrows(w, effect);
    }
  }

  lemma HelperNotes(w: World, s: Step, log: seq<Execution>)
    requires Noted(w, log) && HelperEnabled(w, s) && !s.HelperCrash? && !s.HelperEndPass?
    ensures Noted(HelperDo(w, s), log)
  {
    match s
    case HelperClaim =>
    case HelperSkip =>
    case HelperHandle =>
    case HelperRemove =>
    case _ => assert false;
  }

  lemma {:induction false} RunNotes(worlds: seq<World>, steps: seq<Step>, a: nat, n: nat, log: seq<Execution>)
    requires IsRun(worlds, steps) && a <= n < |worlds| && WithinPass(steps, a, n) && Noted(worlds[a], log)
    ensures Noted(worlds[n], log)
    decreases n
  {
    if a < n {
      RunNotes(worlds, steps, a, n - 1, log);
      RunKeepsBase(worlds, steps, n - 1);
      StepNotes(worlds[n - 1], steps[n - 1], log);
    }
  }

  /** At the end of a pass the helper may go on without publishing exactly when the pass executed nothing. */
  lemma PublicationIsDueExactly(worlds: seq<World>, steps: seq<Step>, a: nat, b: nat, order: seq<ToolKey>)
    requires IsRun(worlds, steps) && a < b < |worlds| && a < |steps| && steps[a].HelperList?
    requires WithinPass(steps, a + 1, b) && worlds[b].helper.at == Passing([])
    requires IsListing(order, worlds[b].managed)
    ensures Enabled(worlds[b], HelperEndPass(true, order))
    ensures Enabled(worlds[b], HelperEndPass(false, order)) <==> worlds[b].log == worlds[a].log
  {
    assert HelperEnabled(worlds[a], steps[a]) && worlds[a + 1] == HelperDo(worlds[a], steps[a]);
    RunNotes(worlds, steps, a + 1, b, worlds[a].log);
  }

  /** A pass that executed anything ends in a publication. */
  lemma ExecutionsArePublished(worlds: seq<World>, steps: seq<Step>, a: nat, b: nat)
    requires IsRun(worlds, steps) && a < b < |steps| && steps[a].HelperList? && WithinPass(steps, a + 1, b)
    requires steps[b].HelperEndPass? && worlds[b].log != worlds[a].log
    ensures steps[b].publish
  {
    assert HelperEnabled(worlds[b], steps[b]);
    PublicationIsDueExactly(worlds, steps, a, b, steps[b].order);
  }

  /** In every run, what one step of a publication writes: the state the tool is in, what the helper holds
      acknowledged for it and when the helper was started; every other state file stays. */
  lemma PublishedFileExactly(worlds: seq<World>, steps: seq<Step>, n: nat)
    requires IsRun(worlds, steps) && n < |steps| && steps[n].HelperRename?
    ensures var w, w' := worlds[n], worlds[n + 1];
            w.helper.at.Replacing? && w.helper.at.unpublished != []
            && var t, rest := w.helper.at.unpublished[0], w.helper.at.unpublished[1..];
            && w'.states == w.states[t := StateFile(Acked(w.helper, t), w.helper.started, steps[n].state)]
            && w'.helper.at == if rest == [] then Idle else Publishing(rest)
  {
    assert HelperEnabled(worlds[n], steps[n]) && worlds[n + 1] == HelperDo(worlds[n], steps[n]);
  }
}
