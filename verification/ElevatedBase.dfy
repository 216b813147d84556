/**
 What holds of the elevated command protocol in every run, whatever crashes and whatever claims fail:
 the files, the pass, the log and the pending commands fit together.
 */
module ElevatedBase {
  import opened Basics
  import opened ElevatedProtocol

  type Commands = map<Ticket, Command>

  // ---------- the pass ----------

  ghost function Todo(at: HelperPoint): seq<Ticket> {
    match at
    case Passing(todo) => todo
    case Holding(_, todo) => todo
    case Finished(_, todo) => todo
    case _ => []
  }

  ghost function Names(todo: seq<Ticket>): set<Ticket> {
    set k | k in todo
  }

  /** The tickets of the current pass that have not been handled yet. */
  ghost function Unhandled(at: HelperPoint): set<Ticket> {
    match at
    case Holding(current, todo) => {current} + Names(todo)
    case _ => Names(Todo(at))
  }

  predicate Loaded(at: HelperPoint) {
    !at.Down? && !at.Recovering?
  }

  ghost predicate HeldFirst(current: Ticket, todo: seq<Ticket>) {
    current !in todo && forall k | k in Names(todo) :: current.id <= k.id
  }

  lemma SplitTodo(todo: seq<Ticket>)
    requires todo != [] && Distinct(todo) && SortedById(todo)
    ensures Names(todo) == {todo[0]} + Names(todo[1..])
    ensures HeldFirst(todo[0], todo[1..]) && Distinct(todo[1..]) && SortedById(todo[1..])
  {
    assert todo == [todo[0]] + todo[1..];
  }

  lemma DoneAppend(log: seq<Execution>, e: Execution)
    ensures Done(log + [e]) == Done(log) + {e.ticket}
  {
    assert forall x :: x in log + [e] <==> x in log || x == e;
  }

  // ---------- the invariant ----------

  ghost predicate FilesSound(files: Commands, issued: Commands) {
    forall k | k in files :: k in issued && issued[k] == files[k]
  }

  ghost predicate PositiveIds(issued: Commands) {
    forall k | k in issued :: 0 < k.id
  }

  ghost predicate TodoSound(todo: seq<Ticket>, commands: Commands) {
    Distinct(todo) && SortedById(todo) && Names(todo) <= commands.Keys
  }

  /** At most one file is claimed while the helper is up, and recovery knows of all of them. */
  ghost predicate ClaimShape(at: HelperPoint, claimed: Commands, done: set<Ticket>) {
    match at
    case Down => true
    case Recovering(entries) => forall k | k in claimed :: k in entries
    case Holding(current, todo) => HeldFirst(current, todo) && claimed.Keys == {current}
    case Finished(current, todo) => HeldFirst(current, todo) && claimed.Keys == {current} && current in done
    case _ => claimed.Keys == {}
  }

  ghost predicate FilesInv(w: World) {
    && FilesSound(w.commands, w.issued) && FilesSound(w.claimed, w.issued) && PositiveIds(w.issued)
    && ClaimShape(w.helper.at, w.claimed, Done(w.log))
    && TodoSound(Todo(w.helper.at), w.commands)
  }

  /** What was executed was issued, for a managed tool, by a helper no later than the present one. */
  ghost predicate EntrySound(e: Execution, managed: set<ToolKey>, incarnation: nat, issued: Commands) {
    && e.ticket in issued && issued[e.ticket] == e.command
    && e.ticket.tool in managed && e.incarnation <= incarnation
  }

  /** An execution of the running helper is acknowledged. */
  ghost predicate Remembered(e: Execution, h: Helper) {
    && (h.at.Recovering? ==> e.incarnation < h.incarnation)
    && (Loaded(h.at) && e.incarnation == h.incarnation ==> e.ticket.id <= Acked(h, e.ticket.tool))
  }

  ghost predicate LogInv(w: World) {
    forall e | e in w.log :: EntrySound(e, w.managed, w.helper.incarnation, w.issued) && Remembered(e, w.helper)
  }

  ghost predicate NoneOrIssued(issued: Commands, tool: ToolKey, id: nat) {
    id == 0 || Ticket(tool, id) in issued
  }

  /** Acknowledged ids were issued, and the helper keeps one for each managed tool. */
  ghost predicate AcksInv(w: World) {
    && (Loaded(w.helper.at) ==> w.helper.acknowledged.Keys == w.managed)
    && (forall t | t in w.helper.acknowledged :: NoneOrIssued(w.issued, t, w.helper.acknowledged[t]))
    && (forall t | t in w.states :: NoneOrIssued(w.issued, t, w.states[t].acknowledged))
  }

  /** `id` is the latest lifecycle command issued for the tool. */
  ghost predicate Latest(issued: Commands, tool: ToolKey, id: nat) {
    && Ticket(tool, id) in issued && issued[Ticket(tool, id)].Lifecycle()
    && forall k | k in issued && k.tool == tool && issued[k].Lifecycle() :: k.id <= id
  }

  /** A pending command is the latest lifecycle command issued, and points where the user wants. */
  ghost predicate PendingSound(issued: Commands, tool: ToolKey, p: Proxy) {
    p.pending.Some? ==>
      var q := p.pending.value;
      Latest(issued, tool, q.id) && issued[Ticket(tool, q.id)] == q.command && q.command.WantsRunning() == p.desired
  }

  ghost predicate ProxiesInv(proxies: map<ToolKey, Proxy>, issued: Commands) {
    forall t | t in proxies :: PendingSound(issued, t, proxies[t])
  }

  ghost predicate Base(w: World) {
    FilesInv(w) && LogInv(w) && AcksInv(w) && ProxiesInv(w.proxies, w.issued)
  }

  // ---------- helper steps: files ----------

  lemma RecoverMovesFile(w: World, k: Ticket)
    requires FilesSound(w.commands, w.issued) && FilesSound(w.claimed, w.issued)
    ensures var w' := Recover(w, k);
            && FilesSound(w'.commands, w.issued) && FilesSound(w'.claimed, w.issued)
            && w'.claimed.Keys == w.claimed.Keys - {k}
            && w'.issued == w.issued && w'.helper == w.helper && w'.log == w.log
  {
  }

  lemma RecoverKeepsFiles(w: World, s: Step)
    requires FilesInv(w) && HelperEnabled(w, s) && s.HelperRecover?
    ensures FilesInv(HelperDo(w, s))
  {
    var entries := w.helper.at.entries;
    RecoverMovesFile(w, entries[0]);
    assert HelperDo(w, s) == SetAt(Recover(w, entries[0]), Recovering(entries[1..]));
    assert entries == [entries[0]] + entries[1..];
  }

  lemma ClaimKeepsFiles(w: World)
    requires FilesInv(w) && w.helper.at.Passing? && w.helper.at.todo != []
    ensures FilesInv(Claim(w)) && w.helper.at.todo[0] in w.commands
    ensures Unhandled(Claim(w).helper.at) == Unhandled(w.helper.at)
  {
    SplitTodo(w.helper.at.todo);
    assert w.helper.at.todo[0] in Names(w.helper.at.todo);
  }

  lemma SkipKeepsFiles(w: World, s: Step)
    requires FilesInv(w) && HelperEnabled(w, s) && s.HelperSkip?
    ensures FilesInv(HelperDo(w, s))
  {
    SplitTodo(w.helper.at.todo);
  }

  lemma HandleKeepsFiles(w: World)
    requires FilesInv(w) && w.helper.at.Holding? && w.helper.at.current in w.claimed
    ensures FilesInv(Handle(w))
  {
    if Executes(w) {
      DoneAppend(w.log, Last(Handle(w).log));
    }
  }

  lemma RemoveKeepsFiles(w: World)
    requires FilesInv(w) && w.helper.at.Finished?
    ensures FilesInv(Remove(w))
  {
  }

  predicate Quiet(s: Step) {
    s.HelperStart? || s.HelperLoad? || s.HelperEndPass? || s.HelperUnlink? || s.HelperRename? || s.HelperCrash?
  }

  /** Steps that leave the command files and the log alone. */
  lemma QuietKeepsFiles(w: World, s: Step)
    requires FilesInv(w) && HelperEnabled(w, s) && Quiet(s)
    ensures FilesInv(HelperDo(w, s))
  {
  }

  lemma ListKeepsFiles(w: World, s: Step)
    requires FilesInv(w) && HelperEnabled(w, s) && s.HelperList?
    ensures FilesInv(HelperDo(w, s))
  {
  }

  lemma HelperKeepsFiles(w: World, s: Step)
    requires FilesInv(w) && HelperEnabled(w, s)
    ensures FilesInv(HelperDo(w, s))
  {
    match s
    case HelperRecover => RecoverKeepsFiles(w, s);
    case HelperList(_) => ListKeepsFiles(w, s);
    case HelperClaim => ClaimKeepsFiles(w);
    case HelperSkip => SkipKeepsFiles(w, s);
    case HelperHandle => HandleKeepsFiles(w);
    case HelperRemove => RemoveKeepsFiles(w);
    case _ => QuietKeepsFiles(w, s);
  }

  // ---------- helper steps: log and acknowledgements ----------

  lemma HandleKeepsLog(w: World)
    requires FilesSound(w.claimed, w.issued) && LogInv(w)
    requires w.helper.at.Holding? && w.helper.at.current in w.claimed
    ensures LogInv(Handle(w))
  {
    var w' := Handle(w);
    forall e | e in w'.log
      ensures EntrySound(e, w'.managed, w'.helper.incarnation, w'.issued) && Remembered(e, w'.helper)
    {
      assert e in w.log || e == Last(w'.log);
      assert e in w.log ==> Remembered(e, w.helper);
    }
  }

  lemma HandleKeepsAcks(w: World)
    requires FilesSound(w.claimed, w.issued) && AcksInv(w)
    requires w.helper.at.Holding? && w.helper.at.current in w.claimed
    ensures AcksInv(Handle(w))
  {
  }

  lemma OthersKeepLog(w: World, s: Step)
    requires LogInv(w) && HelperEnabled(w, s) && !s.HelperHandle?
    ensures LogInv(HelperDo(w, s)) && HelperDo(w, s).log == w.log
  {
    var w' := HelperDo(w, s);
    forall e | e in w.log
      ensures EntrySound(e, w'.managed, w'.helper.incarnation, w'.issued) && Remembered(e, w'.helper)
    {
      assert EntrySound(e, w.managed, w.helper.incarnation, w.issued) && Remembered(e, w.helper);
    }
  }

  lemma RenameKeepsAcks(w: World, s: Step)
    requires AcksInv(w) && HelperEnabled(w, s) && s.HelperRename?
    ensures AcksInv(HelperDo(w, s))
  {
  }

  lemma FileStepsKeepAcks(w: World)
    requires AcksInv(w)
    ensures w.helper.at.Passing? && w.helper.at.todo != [] ==> AcksInv(Claim(w))
    ensures w.helper.at.Finished? ==> AcksInv(Remove(w))
    ensures w.helper.at.Recovering? && w.helper.at.entries != [] ==> AcksInv(Recover(w, w.helper.at.entries[0]))
  {
  }

  lemma OthersKeepAcks(w: World, s: Step)
    requires AcksInv(w) && HelperEnabled(w, s) && !s.HelperHandle?
    ensures AcksInv(HelperDo(w, s))
  {
    FileStepsKeepAcks(w);
    match s
    case HelperRecover =>
    case HelperClaim =>
    case HelperRemove =>
    case HelperRename(_) => RenameKeepsAcks(w, s);
    case _ =>
  }

  lemma HelperKeepsBase(w: World, s: Step)
    requires Base(w) && HelperEnabled(w, s)
    ensures Base(HelperDo(w, s))
  {
    HelperKeepsFiles(w, s);
    HelperLeavesProxies(w, s);
    if s.HelperHandle? {
      HandleKeepsLog(w);
      HandleKeepsAcks(w);
    } else {
      OthersKeepLog(w, s);
      OthersKeepAcks(w, s);
    }
  }

  ghost predicate SameProxies(a: World, b: World) {
    b.proxies == a.proxies && b.issued == a.issued && b.managed == a.managed
  }

  lemma FileStepsLeaveProxies(w: World)
    ensures w.helper.at.Passing? && w.helper.at.todo != [] ==> SameProxies(w, Claim(w))
    ensures w.helper.at.Holding? && w.helper.at.current in w.claimed ==> SameProxies(w, Handle(w))
    ensures w.helper.at.Recovering? && w.helper.at.entries != [] ==> SameProxies(w, Recover(w, w.helper.at.entries[0]))
  {
  }

  lemma HelperLeavesProxies(w: World, s: Step)
    requires HelperEnabled(w, s)
    ensures SameProxies(w, HelperDo(w, s))
  {
    FileStepsLeaveProxies(w);
    match s
    case HelperRecover =>
    case HelperClaim =>
    case HelperHandle =>
    case _ =>
  }

  // ---------- what a proxy step does to the rest of the world ----------

  /** Nothing, a new command, or the latest lifecycle command once more. */
  datatype Effect = Nothing | New(k: Ticket, c: Command) | Again(k: Ticket)

  ghost predicate CanWrite(w: World, effect: Effect) {
    match effect
    case Nothing => true
    case New(k, c) => Fresh(w, k.tool, k.id)
    case Again(k) => Latest(w.issued, k.tool, k.id)
  }

  ghost function Write(w: World, effect: Effect): World
    requires CanWrite(w, effect)
  {
    match effect
    case Nothing => w
    case New(k, c) => Deliver(w, k, c)
    case Again(k) => Deliver(w, k, w.issued[k])
  }

  /** A proxy writes one command at most, and changes nothing else but proxies. */
  ghost predicate Writes(w: World, effect: Effect, w': World) {
    CanWrite(w, effect) && w' == Write(w, effect).(proxies := w'.proxies)
  }

  lemma QueueWrites(w: World, tool: ToolKey, c: Command, send: SendResult) returns (effect: Effect)
    requires CanSend(w, tool, send)
    ensures Writes(w, effect, Queue(w, tool, c, send)) && Queue(w, tool, c, send).proxies == w.proxies
  {
    effect := if send.Sent? then New(Ticket(tool, send.id), c) else Nothing;
  }

  lemma ReceiveWrites(w: World, tool: ToolKey, control: Control, now: nat, send: SendResult) returns (effect: Effect)
    requires tool in w.proxies && CanSend(w, tool, send)
    ensures Writes(w, effect, Receive(w, tool, control, now, send))
  {
    effect := Nothing;
    if CommandFor(control).Some? {
      effect := QueueWrites(w, tool, CommandFor(control).value, send);
    }
  }

  lemma DecideWrites(w: World, tool: ToolKey, now: nat, send: SendResult) returns (effect: Effect)
    requires ProxiesInv(w.proxies, w.issued) && ProxyEnabled(w, ProxyDecide(tool, now, send))
    ensures Writes(w, effect, Decide(w, tool, now, send))
  {
    var p := w.proxies[tool];
    assert PendingSound(w.issued, tool, p);
    effect := Nothing;
    if Reissues(p) {
      effect := QueueWrites(w, tool, DesiredCommand(p.desired), send);
    } else if Resends(p, now) && send.Sent? {
      effect := Again(Ticket(tool, p.pending.value.id));
    }
  }

  lemma ReconcileWrites(w: World, tool: ToolKey, now: nat, send: SendResult) returns (effect: Effect)
    requires ProxyEnabled(w, ProxyReconcile(tool, now, send))
    ensures Writes(w, effect, Reconcile(w, tool, now, send))
  {
    effect := Nothing;
    if Reconciles(w.proxies[tool], now) {
      effect := QueueWrites(w, tool, DesiredCommand(w.proxies[tool].desired), send);
    }
  }

  lemma ProxyWrites(w: World, s: Step) returns (effect: Effect)
    requires ProxiesInv(w.proxies, w.issued) && ProxyEnabled(w, s)
    ensures Writes(w, effect, ProxyDo(w, s))
  {
    effect := Nothing;
    match s
    case ProxySpawn(tool, autoStart, now, send) =>
      if autoStart {
        effect := QueueWrites(w, tool, Start, send);
      }
    case ProxyControl(tool, control, now, send) => effect := ReceiveWrites(w, tool, control, now, send);
    case ProxyRead(_, _) =>
    case ProxyDecide(tool, now, send) => effect := DecideWrites(w, tool, now, send);
    case ProxyReconcile(tool, now, send) => effect := ReconcileWrites(w, tool, now, send);
    case ProxyCrash(_) =>
  }

  // ---------- writes keep what is not about proxies ----------

  lemma WriteKeepsFiles(w: World, effect: Effect)
    requires FilesInv(w) && CanWrite(w, effect)
    ensures FilesInv(Write(w, effect))
    ensures effect.New? ==> effect.k !in w.issued
    ensures effect.Again? ==> Write(w, effect).issued == w.issued
  {
    if effect.Again? {
      assert w.issued[effect.k := w.issued[effect.k]] == w.issued;
    }
  }

  lemma WriteGrows(w: World, effect: Effect)
    requires CanWrite(w, effect)
    ensures var w' := Write(w, effect);
            && (forall k | k in w.issued :: k in w'.issued && w'.issued[k] == w.issued[k])
            && w'.helper == w.helper && w'.managed == w.managed && w'.log == w.log && w'.states == w.states
            && w'.claimed == w.claimed && w.commands.Keys <= w'.commands.Keys
  {
  }

  lemma WriteKeepsLog(w: World, effect: Effect)
    requires LogInv(w) && AcksInv(w) && CanWrite(w, effect)
    ensures LogInv(Write(w, effect)) && AcksInv(Write(w, effect))
  {
    var w' := Write(w, effect);
    WriteGrows(w, effect);
    forall e | e in w.log
      ensures EntrySound(e, w'.managed, w'.helper.incarnation, w'.issued)
    {
      assert EntrySound(e, w.managed, w.helper.incarnation, w.issued);
    }
  }

  // ---------- pending commands ----------

  /** After a command was sent for `tool`, the other proxies' commands are still the latest of theirs, and a
      lifecycle command is now the latest of its own. */
  lemma QueueKeepsProxies(w: World, tool: ToolKey, c: Command, send: SendResult)
    requires ProxiesInv(w.proxies, w.issued) && CanSend(w, tool, send)
    ensures forall t | t in w.proxies && (t != tool || c.SampleMemory?) ::
              PendingSound(Queue(w, tool, c, send).issued, t, w.proxies[t])
    ensures send.Sent? && c.Lifecycle() ==> Latest(Queue(w, tool, c, send).issued, tool, send.id)
    ensures send.Sent? ==> Queue(w, tool, c, send).issued == w.issued[Ticket(tool, send.id) := c]
  {
    if send.Sent? {
      assert Ticket(tool, send.id) !in w.issued;
    }
  }

  /** Replacing the pending command by a new one, or by nothing if the send failed, keeps the pending command
      the latest one and pointing where the user wants. */
  lemma RequestPreserves(w: World, tool: ToolKey, c: Command, now: nat, send: SendResult, p: Proxy)
    requires ProxiesInv(w.proxies, w.issued) && CanSend(w, tool, send)
    requires c.Lifecycle() && p.pending == Queued(c, now, send) && p.desired == c.WantsRunning()
    ensures ProxiesInv(w.proxies[tool := p], Queue(w, tool, c, send).issued)
  {
    QueueKeepsProxies(w, tool, c, send);
  }

  lemma ReceiveKeepsProxies(w: World, tool: ToolKey, control: Control, now: nat, send: SendResult)
    requires ProxiesInv(w.proxies, w.issued) && tool in w.proxies && CanSend(w, tool, send)
    ensures var w' := Receive(w, tool, control, now, send); ProxiesInv(w'.proxies, w'.issued)
  {
    var p' := Received(w.proxies[tool], control, now, send);
    match control
    case ToStart => RequestPreserves(w, tool, Start, now, send, p');
    case ToStop => RequestPreserves(w, tool, Stop, now, send, p');
    case ToRestart => RequestPreserves(w, tool, Restart, now, send, p');
    case ToSample => QueueKeepsProxies(w, tool, SampleMemory, send);
    case Timeout =>
    case Shutdown => QueueKeepsProxies(w, tool, Stop, send);
  }

  lemma DecideKeepsProxies(w: World, tool: ToolKey, now: nat, send: SendResult)
    requires ProxiesInv(w.proxies, w.issued) && ProxyEnabled(w, ProxyDecide(tool, now, send))
    ensures var w' := Decide(w, tool, now, send); ProxiesInv(w'.proxies, w'.issued)
  {
    var p := w.proxies[tool];
    assert PendingSound(w.issued, tool, p);
    if Reissues(p) {
      RequestPreserves(w, tool, DesiredCommand(p.desired), now, send, Decided(p, now, send));
    } else if Resends(p, now) && send.Sent? {
      var k := Ticket(tool, p.pending.value.id);
      assert w.issued[k := w.issued[k]] == w.issued;
    }
  }

  lemma ProxyKeepsProxies(w: World, s: Step)
    requires ProxiesInv(w.proxies, w.issued) && ProxyEnabled(w, s)
    ensures var w' := ProxyDo(w, s); ProxiesInv(w'.proxies, w'.issued)
  {
    match s
    case ProxySpawn(tool, autoStart, now, send) =>
      if autoStart {
        RequestPreserves(w, tool, Start, now, send, SpawnedProxy(autoStart, now, send));
      }
    case ProxyControl(tool, control, now, send) => ReceiveKeepsProxies(w, tool, control, now, send);
    case ProxyRead(tool, _) => assert PendingSound(w.issued, tool, w.proxies[tool]);
    case ProxyDecide(tool, now, send) => DecideKeepsProxies(w, tool, now, send);
    case ProxyReconcile(tool, now, send) =>
      var p := w.proxies[tool];
      if Reconciles(p, now) {
        RequestPreserves(w, tool, DesiredCommand(p.desired), now, send, Reconciled(p, now, send));
      }
    case ProxyCrash(_) =>
  }

  lemma ProxyKeepsBase(w: World, s: Step)
    requires Base(w) && ProxyEnabled(w, s)
    ensures Base(ProxyDo(w, s))
  {
    var effect := ProxyWrites(w, s);
    WriteKeepsFiles(w, effect);
    WriteKeepsLog(w, effect);
    ProxyKeepsProxies(w, s);
  }

  // ---------- every run ----------

  lemma StepKeepsBase(w: World, s: Step)
    requires Base(w) && Enabled(w, s)
    ensures Base(Do(w, s))
  {
    if HelperEnabled(w, s) {
      HelperKeepsBase(w, s);
    } else {
      ProxyKeepsBase(w, s);
    }
  }

  lemma {:induction false} RunKeepsBase(worlds: seq<World>, steps: seq<Step>, n: nat)
    requires IsRun(worlds, steps) && n < |worlds|
    ensures Base(worlds[n])
  {
    if n > 0 {
      RunKeepsBase(worlds, steps, n - 1);
      StepKeepsBase(worlds[n - 1], steps[n - 1]);
    }
  }
}
