/**
 Runs that show where the protocol's promises end: a later helper may repeat a lifecycle command after an
 earlier helper's memory sample; a failed claim may lose a command, and it may put commands out of order.
 */
module ElevatedExamples {
  import opened Basics
  import opened ElevatedProtocol

  ghost predicate ClaimsSucceed(steps: seq<Step>) {
    forall s | s in steps :: !s.HelperSkip?
  }

  /** Some run ends in `w`; with `clean`, one in which every claim succeeds. */
  ghost predicate Reaches(w: World, clean: bool) {
    exists worlds, steps ::
      IsRun(worlds, steps) && Last(worlds) == w && (clean ==> ClaimsSucceed(steps))
  }

  lemma Extend(w: World, s: Step, w': World, clean: bool)
    requires Reaches(w, clean) && Enabled(w, s) && w' == Do(w, s)
    requires clean ==> !s.HelperSkip?
    ensures Reaches(w', clean)
  {
    var worlds, steps :| IsRun(worlds, steps) && Last(worlds) == w && (clean ==> ClaimsSucceed(steps));
    var worlds', steps' := worlds + [w'], steps + [s];
    forall i | 0 <= i < |steps'|
      ensures Enabled(worlds'[i], steps'[i]) && worlds'[i + 1] == Do(worlds'[i], steps'[i])
    {
      if i < |steps| {
        assert worlds'[i] == worlds[i] && worlds'[i + 1] == worlds[i + 1] && steps'[i] == steps[i];
      } else {
        assert worlds'[i] == w && worlds'[i + 1] == w' && steps'[i] == s;
      }
    }
    assert IsRun(worlds', steps') && Last(worlds') == w';
  }

  lemma ExtendHelper(w: World, s: Step, w': World, clean: bool)
    requires Reaches(w, clean) && HelperEnabled(w, s) && w' == HelperDo(w, s)
    requires clean ==> !s.HelperSkip?
    ensures Reaches(w', clean)
  {
    Extend(w, s, w', clean);
  }

  lemma ExtendProxy(w: World, s: Step, w': World, clean: bool)
    requires Reaches(w, clean) && ProxyEnabled(w, s) && w' == ProxyDo(w, s)
    ensures Reaches(w', clean)
  {
    assert !HelperEnabled(w, s);
    Extend(w, s, w', clean);
  }

  function Initial(tool: ToolKey): World {
    World({tool}, map[], map[], map[], Helper(Down, 0, 0, map[], false), map[], map[], [])
  }

  lemma InitialIsReached(tool: ToolKey, clean: bool)
    ensures Reaches(Initial(tool), clean)
  {
    var worlds, steps: seq<Step> := [Initial(tool)], [];
    assert IsRun(worlds, steps) && ClaimsSucceed(steps) && Last(worlds) == Initial(tool);
  }

  /** What the proxy sends second. */
  function Second(control: Control): Command {
    if control.ToStop? then Stop else SampleMemory
  }

  function Files(tool: ToolKey, control: Control): map<Ticket, Command> {
    map[Ticket(tool, 1) := Start, Ticket(tool, 2) := Second(control)]
  }

  function Asking(): Proxy {
    Proxy(Waiting, true, Some(Pending(1, Start, 0)), None, false, Some(0))
  }

  function Sent1(tool: ToolKey): World {
    var files := map[Ticket(tool, 1) := Start];
    Initial(tool).(commands := files, issued := files, proxies := map[tool := Asking()])
  }

  /** A proxy that has sent a start (id 1) and a stop or a memory sample (id 2). */
  function Sent2(tool: ToolKey, control: Control): World {
    Initial(tool).(commands := Files(tool, control), issued := Files(tool, control),
                   proxies := map[tool := Received(Asking(), control, 0, Sent(2))])
  }

  lemma Sent1IsReached(tool: ToolKey, clean: bool)
    ensures Reaches(Sent1(tool), clean)
  {
    InitialIsReached(tool, clean);
    ExtendProxy(Initial(tool), ProxySpawn(tool, true, 0, Sent(1)), Sent1(tool), clean);
  }

  lemma Sent2IsReached(tool: ToolKey, control: Control, clean: bool)
    requires control.ToStop? || control.ToSample?
    ensures Reaches(Sent2(tool, control), clean)
  {
    Sent1IsReached(tool, clean);
    ExtendProxy(Sent1(tool), ProxyControl(tool, control, 0, Sent(2)), Sent2(tool, control), clean);
  }

  // ---------- stretches of a run ----------

  /** A helper that recovers nothing and reads its state files. */
  function Booted(w: World, started: nat): World {
    w.(helper := Helper(Idle, w.helper.incarnation + 1, started, map t | t in w.managed :: PublishedId(w, t), false))
  }

  lemma Boot(w: World, started: nat, clean: bool)
    requires Reaches(w, clean) && w.helper.at.Down? && w.claimed == map[] && w.managed != {}
    ensures Reaches(Booted(w, started), clean)
  {
    var w1 := w.(helper := Helper(Recovering([]), w.helper.incarnation + 1, started, map[], false));
    ExtendHelper(w, HelperStart(started, []), w1, clean);
    ExtendHelper(w1, HelperLoad, Booted(w, started), clean);
  }

  predicate CanExecute(w: World) {
    && w.helper.at.Passing? && w.helper.at.todo != [] && w.claimed == map[]
    && var k := w.helper.at.todo[0];
       && k in w.commands && k.tool in w.managed
       && k.tool in w.helper.acknowledged && w.helper.acknowledged[k.tool] < k.id
  }

  /** The helper claims, executes and removes the next command of its pass. */
  function Executed(w: World): World
    requires CanExecute(w)
  {
    var h, k := w.helper, w.helper.at.todo[0];
    w.(commands := w.commands - {k},
       helper := h.(at := Passing(h.at.todo[1..]), acknowledged := h.acknowledged[k.tool := k.id], changed := true),
       log := w.log + [Execution(h.incarnation, k, w.commands[k])])
  }

  lemma ExecuteNext(w: World, clean: bool)
    requires Reaches(w, clean) && CanExecute(w)
    ensures Reaches(Executed(w), clean)
  {
    var k, rest := w.helper.at.todo[0], w.helper.at.todo[1..];
    var w1 := SetAt(w.(commands := w.commands - {k}, claimed := map[k := w.commands[k]]), Holding(k, rest));
    ExtendHelper(w, HelperClaim, w1, clean);
    var w2 := w1.(helper := w1.helper.(at := Finished(k, rest), changed := true,
                                       acknowledged := w.helper.acknowledged[k.tool := k.id]),
                  log := w.log + [Execution(w.helper.incarnation, k, w.commands[k])]);
    ExtendHelper(w1, HelperHandle, w2, clean);
    assert w2.claimed - {k} == map[];
    ExtendHelper(w2, HelperRemove, Executed(w), clean);
  }

  /** The helper ends its pass and publishes the state of its one tool. */
  function Published(w: World, tool: ToolKey): World
    requires tool in w.helper.acknowledged
  {
    SetAt(w.(states := map[tool := StateFile(w.helper.acknowledged[tool], w.helper.started, Stopped)]), Idle)
  }

  /** The helper has removed the old state file. */
  function Unlinked(w: World, tool: ToolKey): World {
    SetAt(w.(states := map[]), Replacing([tool]))
  }

  lemma Unlink(w: World, tool: ToolKey, clean: bool)
    requires Reaches(w, clean) && w.helper.at == Passing([]) && w.managed == {tool} && w.states.Keys <= {tool}
    ensures Reaches(Unlinked(w, tool), clean)
  {
    var ending := SetAt(w, Publishing([tool]));
    ExtendHelper(w, HelperEndPass(true, [tool]), ending, clean);
    assert w.states - {tool} == map[];
    ExtendHelper(ending, HelperUnlink, Unlinked(w, tool), clean);
  }

  lemma Publish(w: World, tool: ToolKey, clean: bool)
    requires Reaches(w, clean) && w.helper.at == Passing([]) && w.managed == {tool}
    requires tool in w.helper.acknowledged && w.states.Keys <= {tool}
    ensures Reaches(Published(w, tool), clean)
  {
    Unlink(w, tool, clean);
    ExtendHelper(Unlinked(w, tool), HelperRename(Stopped), Published(w, tool), clean);
  }

  // ---------- a failed claim ----------

  /** A helper has listed both commands. */
  function Listed(tool: ToolKey, control: Control): World {
    var todo := [Ticket(tool, 1), Ticket(tool, 2)];
    Sent2(tool, control).(helper := Helper(Passing(todo), 1, 1, map[tool := 0], false))
  }

  lemma ListedIsReached(tool: ToolKey, control: Control, clean: bool)
    requires control.ToStop? || control.ToSample?
    ensures Reaches(Listed(tool, control), clean)
  {
    Sent2IsReached(tool, control, clean);
    var w := Booted(Sent2(tool, control), 1);
    Boot(Sent2(tool, control), 1, clean);
    ExtendHelper(w, HelperList([Ticket(tool, 1), Ticket(tool, 2)]), Listed(tool, control), clean);
  }

  /** The helper could not claim the start and ran the other command. */
  function Overtaken(tool: ToolKey, control: Control): World {
    Listed(tool, control).(
      commands := map[Ticket(tool, 1) := Start],
      helper := Helper(Passing([]), 1, 1, map[tool := 2], true),
      log := [Execution(1, Ticket(tool, 2), Second(control))])
  }

  function Skipped(tool: ToolKey, control: Control): World {
    SetAt(Listed(tool, control), Passing([Ticket(tool, 2)]))
  }

  lemma SkippedIsReached(tool: ToolKey, control: Control)
    requires control.ToStop? || control.ToSample?
    ensures Reaches(Skipped(tool, control), false)
  {
    ListedIsReached(tool, control, false);
    ExtendHelper(Listed(tool, control), HelperSkip, Skipped(tool, control), false);
  }

  lemma SkippedRunsSecond(tool: ToolKey, control: Control)
    ensures CanExecute(Skipped(tool, control)) && Executed(Skipped(tool, control)) == Overtaken(tool, control)
  {
    var w := Skipped(tool, control);
    assert w.helper.at.todo[1..] == [] && w.log == [];
    assert map[tool := 0][tool := 2] == map[tool := 2];
    assert w.commands - {Ticket(tool, 2)} == map[Ticket(tool, 1) := Start];
  }

  lemma OvertakenIsReached(tool: ToolKey, control: Control)
    requires control.ToStop? || control.ToSample?
    ensures Reaches(Overtaken(tool, control), false)
  {
    SkippedIsReached(tool, control);
    SkippedRunsSecond(tool, control);
    ExecuteNext(Skipped(tool, control), false);
  }

  /** It then published its acknowledgement of the memory sample. */
  function Acknowledged(tool: ToolKey): World {
    Overtaken(tool, ToSample).(
      states := map[tool := StateFile(2, 1, Stopped)],
      helper := Helper(Idle, 1, 1, map[tool := 2], true))
  }

  /** The acknowledgement is then dishonest: the start never ran, yet it is at or below the published
      id, so the proxy's next read drops it. */
  lemma FailedClaimLosesCommand(tool: ToolKey)
    ensures var w := Acknowledged(tool);
            && Reaches(w, false)
            && Ticket(tool, 1) in w.issued && Ticket(tool, 1) !in Done(w.log)
            && 1 <= w.states[tool].acknowledged
            && ProxyEnabled(w, ProxyRead(tool, true))
            && ProxyDo(w, ProxyRead(tool, true)).proxies[tool].pending.None?
  {
    OvertakenIsReached(tool, ToSample);
    Publish(Overtaken(tool, ToSample), tool, false);
  }

  /** The helper ran the stop and crashed before it published anything; a second helper lists the start. */
  function StartRemains(tool: ToolKey): World {
    Overtaken(tool, ToStop).(helper := Helper(Passing([Ticket(tool, 1)]), 2, 2, map[tool := 0], false))
  }

  lemma StartRemainsIsReached(tool: ToolKey)
    ensures Reaches(StartRemains(tool), false)
  {
    OvertakenIsReached(tool, ToStop);
    var w0 := Overtaken(tool, ToStop);
    var w1 := w0.(helper := Helper(Down, 1, 1, map[], true));
    ExtendHelper(w0, HelperCrash, w1, false);
    Boot(w1, 2, false);
    ExtendHelper(Booted(w1, 2), HelperList([Ticket(tool, 1)]), StartRemains(tool), false);
  }

  /** So after a failed claim lifecycle commands may run out of order: the user asked for a stop last, and
      the start before it is executed last. */
  lemma FailedClaimReordersCommands(tool: ToolKey)
    ensures exists w ::
              && Reaches(w, false) && tool in w.proxies && !w.proxies[tool].desired
              && w.log == [Execution(1, Ticket(tool, 2), Stop), Execution(2, Ticket(tool, 1), Start)]
  {
    StartRemainsIsReached(tool);
    ExecuteNext(StartRemains(tool), false);
    assert Executed(StartRemains(tool)).log ==
           [Execution(1, Ticket(tool, 2), Stop)] + [Execution(2, Ticket(tool, 1), Start)];
  }

  // ---------- a repeated command ----------

  /** The helper ran both commands and crashed before it published anything. */
  function Unpublished(tool: ToolKey): World {
    Listed(tool, ToSample).(
      commands := map[],
      helper := Helper(Down, 1, 1, map[], true),
      log := [Execution(1, Ticket(tool, 1), Start), Execution(1, Ticket(tool, 2), SampleMemory)])
  }

  /** The start has run. */
  function HalfDone(tool: ToolKey): World {
    Listed(tool, ToSample).(
      commands := map[Ticket(tool, 2) := SampleMemory],
      helper := Helper(Passing([Ticket(tool, 2)]), 1, 1, map[tool := 1], true),
      log := [Execution(1, Ticket(tool, 1), Start)])
  }

  lemma HalfDoneIsReached(tool: ToolKey)
    ensures Reaches(HalfDone(tool), true)
  {
    ListedIsReached(tool, ToSample, true);
    ExecuteNext(Listed(tool, ToSample), true);
    assert Executed(Listed(tool, ToSample)) == HalfDone(tool);
  }

  lemma UnpublishedIsReached(tool: ToolKey)
    ensures Reaches(Unpublished(tool), true)
  {
    HalfDoneIsReached(tool);
    var w1 := HalfDone(tool);
    ExecuteNext(w1, true);
    var w2 := Unpublished(tool).(helper := Helper(Passing([]), 1, 1, map[tool := 2], true));
    assert Executed(w1).commands == map[] && Executed(w1).log == w2.log;
    assert Executed(w1).helper == w2.helper by {
      assert map[tool := 1][tool := 2] == map[tool := 2];
      assert w1.helper.at.todo[1..] == [];
    }
    ExtendHelper(w2, HelperCrash, Unpublished(tool), true);
  }

  /** A second helper has published that it acknowledges nothing. */
  function Republished(tool: ToolKey): World {
    Unpublished(tool).(
      states := map[tool := StateFile(0, 2, Stopped)],
      helper := Helper(Idle, 2, 2, map[tool := 0], false))
  }

  lemma RepublishedIsReached(tool: ToolKey)
    ensures Reaches(Republished(tool), true)
  {
    UnpublishedIsReached(tool);
    var w0 := Unpublished(tool);
    Boot(w0, 2, true);
    var w1 := w0.(helper := Helper(Passing([]), 2, 2, map[tool := 0], false));
    ExtendHelper(Booted(w0, 2), HelperList([]), w1, true);
    Publish(w1, tool, true);
    assert Published(w1, tool) == Republished(tool);
  }

  /** The proxy has resent the start, and the second helper has listed it. */
  function Resent(tool: ToolKey): World {
    Republished(tool).(
      commands := map[Ticket(tool, 1) := Start],
      proxies := map[tool := Proxy(Reconciling(false), true, Some(Pending(1, Start, 2_000)),
                                   Some(2), false, Some(2_000))],
      helper := Helper(Passing([Ticket(tool, 1)]), 2, 2, map[tool := 0], false))
  }

  lemma ResentIsReached(tool: ToolKey)
    ensures Reaches(Resent(tool), true)
  {
    RepublishedIsReached(tool);
    var w0 := Republished(tool);
    var view := StateFile(0, 2, Stopped);
    var p := Proxy(Deciding(view, true, false, false), true, Some(Pending(1, Start, 0)), Some(2), false, Some(0));
    var w1 := w0.(proxies := map[tool := p]);
    ExtendProxy(w0, ProxyRead(tool, true), w1, true);
    var w2 := Resent(tool).(helper := w0.helper);
    ExtendProxy(w1, ProxyDecide(tool, 2_000, Sent(1)), w2, true);
    ExtendHelper(w2, HelperList([Ticket(tool, 1)]), Resent(tool), true);
  }

  /** So even with every claim in order, ids of one tool may decrease across helpers: an older start
      runs again after a newer sample. */
  lemma SampleThenOlderStart(tool: ToolKey)
    ensures exists w ::
              && Reaches(w, true)
              && w.log == [Execution(1, Ticket(tool, 1), Start), Execution(1, Ticket(tool, 2), SampleMemory),
                           Execution(2, Ticket(tool, 1), Start)]
  {
    ResentIsReached(tool);
    ExecuteNext(Resent(tool), true);
  }
}
