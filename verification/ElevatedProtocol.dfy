/**
 The command protocol between the unprivileged manager and the elevated helper.

 The two sides share a directory.  One proxy thread per administrator tool writes command files and
 reads the tool's state file; the helper claims command files by renaming them, executes them, and
 publishes state files that carry the highest acknowledged command id.  Every file-system operation
 is one step, so the sides interleave at that grain, and the helper may crash between any two steps.
 */
module ElevatedProtocol {
  import opened Basics

  type ToolKey = string

  datatype Command = Start | Stop | Restart | SampleMemory {
    /** A command that moves the tool towards running or stopped. */
    predicate Lifecycle() { !SampleMemory? }

    predicate WantsRunning() { Start? || Restart? }
  }

  /** The name of a command file, without its extension. */
  datatype Ticket = Ticket(tool: ToolKey, id: nat)

  datatype Execution = Execution(incarnation: nat, ticket: Ticket, command: Command)

  datatype StateFile = StateFile(acknowledged: nat, helperStarted: nat, state: ToolState)

  /** Program points of the helper. */
  datatype HelperPoint =
    | Down
    | Recovering(entries: seq<Ticket>)
    | Idle
    | Passing(todo: seq<Ticket>)
    | Holding(current: Ticket, todo: seq<Ticket>)
    | Finished(current: Ticket, todo: seq<Ticket>)
    | Publishing(unpublished: seq<ToolKey>)
    | Replacing(unpublished: seq<ToolKey>)

  datatype Helper = Helper(
    at: HelperPoint,
    incarnation: nat,
    started: nat,
    acknowledged: map<ToolKey, nat>,
    changed: bool)

  datatype Pending = Pending(id: nat, command: Command, issued: nat)

  /** Program points of a proxy thread. */
  datatype ProxyPoint =
    | Waiting
    | Polling
    | Deciding(view: StateFile, firstSeen: bool, changed: bool, matches: bool)
    | Reconciling(matches: bool)

  datatype Proxy = Proxy(
    at: ProxyPoint,
    desired: bool,
    pending: Option<Pending>,
    helperStarted: Option<nat>,
    satisfied: bool,
    lastIssue: Option<nat>)

  /** `commands` and `claimed` are the `.command` and `.processing-<pid>` files of the control
      directory; `issued` and `log` are history: what was sent successfully, and what was executed. */
  datatype World = World(
    managed: set<ToolKey>,
    commands: map<Ticket, Command>,
    claimed: map<Ticket, Command>,
    states: map<ToolKey, StateFile>,
    helper: Helper,
    proxies: map<ToolKey, Proxy>,
    issued: map<Ticket, Command>,
    log: seq<Execution>)

  datatype Control = ToStart | ToStop | ToRestart | ToSample | Timeout | Shutdown

  datatype SendResult = Sent(id: nat) | Failed

  datatype Step =
    | HelperStart(started: nat, entries: seq<Ticket>)
    | HelperRecover
    | HelperLoad
    | HelperList(listing: seq<Ticket>)
    | HelperClaim
    | HelperSkip
    | HelperHandle
    | HelperRemove
    | HelperEndPass(publish: bool, order: seq<ToolKey>)
    | HelperUnlink
    | HelperRename(state: ToolState)
    | HelperCrash
    | ProxySpawn(tool: ToolKey, autoStart: bool, now: nat, send: SendResult)
    | ProxyControl(tool: ToolKey, control: Control, now: nat, send: SendResult)
    | ProxyRead(tool: ToolKey, recent: bool)
    | ProxyDecide(tool: ToolKey, now: nat, send: SendResult)
    | ProxyReconcile(tool: ToolKey, now: nat, send: SendResult)
    | ProxyCrash(tool: ToolKey)

  const RESEND_AFTER_MS: nat := 2_000
  const RECONCILE_AFTER_MS: nat := 8_000

  // ---------- vocabulary ----------

  ghost predicate Distinct<T(!new)>(s: seq<T>) {
    forall i, j | 0 <= i < j < |s| :: s[i] != s[j]
  }

  ghost predicate SortedById(s: seq<Ticket>) {
    forall i, j | 0 <= i < j < |s| :: s[i].id <= s[j].id
  }

  /** A snapshot of a set of names, in some order. */
  ghost predicate IsListing<T(!new)>(s: seq<T>, names: set<T>) {
    Distinct(s) && forall x :: x in s <==> x in names
  }

  ghost function Done(log: seq<Execution>): set<Ticket> {
    set e | e in log :: e.ticket
  }

  /** The assumption on `next_command_id`: a new id exceeds every id issued for the tool. */
  ghost predicate Fresh(w: World, tool: ToolKey, id: nat) {
    0 < id && forall k | k in w.issued && k.tool == tool :: k.id < id
  }

  ghost predicate CanSend(w: World, tool: ToolKey, send: SendResult) {
    send.Sent? ==> Fresh(w, tool, send.id)
  }

  function DesiredCommand(desired: bool): Command {
    if desired then Start else Stop
  }

  // ---------- effects ----------

  /** `write_command`: an existing file is left alone. */
  function Deliver(w: World, k: Ticket, c: Command): World {
    w.(commands := if k in w.commands then w.commands else w.commands[k := c],
       issued := if k in w.issued then w.issued else w.issued[k := c])
  }

  function Queue(w: World, tool: ToolKey, c: Command, send: SendResult): World {
    if send.Sent? then Deliver(w, Ticket(tool, send.id), c) else w
  }

  function Queued(c: Command, now: nat, send: SendResult): Option<Pending> {
    if send.Sent? then Some(Pending(send.id, c, now)) else None
  }

  function SetAt(w: World, at: HelperPoint): World {
    w.(helper := w.helper.(at := at))
  }

  function SetProxy(w: World, tool: ToolKey, p: Proxy): World {
    w.(proxies := w.proxies[tool := p])
  }

  // ---------- helper ----------

  ghost predicate HelperEnabled(w: World, s: Step) {
    var at := w.helper.at;
    match s
    case HelperStart(_, entries) => at.Down? && w.managed != {} && IsListing(entries, w.claimed.Keys)
    case HelperRecover => at.Recovering? && at.entries != []
    case HelperLoad => at.Recovering? && at.entries == []
    case HelperList(listing) => at.Idle? && IsListing(listing, w.commands.Keys) && SortedById(listing)
    case HelperClaim => at.Passing? && at.todo != []
    case HelperSkip => at.Passing? && at.todo != []
    case HelperHandle => at.Holding? && at.current in w.claimed
    case HelperRemove => at.Finished?
    case HelperEndPass(publish, order) =>
      at.Passing? && at.todo == [] && (w.helper.changed ==> publish) && IsListing(order, w.managed)
    case HelperUnlink => at.Publishing? && at.unpublished != []
    case HelperRename(_) => at.Replacing? && at.unpublished != []
    case HelperCrash => !at.Down?
    case _ => false
  }

  /** One entry of `recover_claimed_commands`. */
  function Recover(w: World, k: Ticket): World {
    if k !in w.claimed then w
    else w.(commands := if k in w.commands then w.commands else w.commands[k := w.claimed[k]],
            claimed := w.claimed - {k})
  }

  /** Renaming the next listed file; one that is gone is passed over. */
  function Claim(w: World): World
    requires w.helper.at.Passing? && w.helper.at.todo != []
  {
    var k, rest := w.helper.at.todo[0], w.helper.at.todo[1..];
    if k !in w.commands then SetAt(w, Passing(rest))
    else SetAt(w.(commands := w.commands - {k}, claimed := w.claimed[k := w.commands[k]]), Holding(k, rest))
  }

  function Remove(w: World): World
    requires w.helper.at.Finished?
  {
    SetAt(w.(claimed := w.claimed - {w.helper.at.current}), Passing(w.helper.at.todo))
  }

  /** The id the helper holds acknowledged for a tool. */
  function Acked(h: Helper, tool: ToolKey): nat {
    if tool in h.acknowledged then h.acknowledged[tool] else 0
  }

  /** The held command is neither unknown nor acknowledged. */
  predicate Executes(w: World)
    requires w.helper.at.Holding?
  {
    w.helper.at.current.tool in w.managed && Acked(w.helper, w.helper.at.current.tool) < w.helper.at.current.id
  }

  /** What follows a claim (src/core/elevated.rs:126-147): reject an unknown tool, drop an acknowledged id,
      execute the rest. */
  function Handle(w: World): World
    requires w.helper.at.Holding? && w.helper.at.current in w.claimed
  {
    var h, k := w.helper, w.helper.at.current;
    if !Executes(w) then
      SetAt(w.(claimed := w.claimed - {k}), Passing(h.at.todo))
    else
      w.(helper := h.(at := Finished(k, h.at.todo),
                      acknowledged := h.acknowledged[k.tool := k.id],
                      changed := true),
         log := w.log + [Execution(h.incarnation, k, w.claimed[k])])
  }

  function PublishedId(w: World, tool: ToolKey): nat {
    if tool in w.states then w.states[tool].acknowledged else 0
  }

  function HelperDo(w: World, s: Step): World
    requires HelperEnabled(w, s)
  {
    var h := w.helper;
    match s
    case HelperStart(started, entries) =>
      w.(helper := Helper(Recovering(entries), h.incarnation + 1, started, map[], false))
    case HelperRecover =>
      SetAt(Recover(w, h.at.entries[0]), Recovering(h.at.entries[1..]))
    case HelperLoad =>
      w.(helper := h.(at := Idle, acknowledged := map t | t in w.managed :: PublishedId(w, t)))
    case HelperList(listing) =>
      w.(helper := h.(at := Passing(listing), changed := false))
    case HelperClaim => Claim(w)
    // the rename that claims a command failed: its file stays, and the pass goes on
    case HelperSkip => SetAt(w, Passing(h.at.todo[1..]))
    case HelperHandle => Handle(w)
    case HelperRemove => Remove(w)
    case HelperEndPass(publish, order) =>
      SetAt(w, if publish then Publishing(order) else Idle)
    case HelperUnlink =>
      SetAt(w.(states := w.states - {h.at.unpublished[0]}), Replacing(h.at.unpublished))
    case HelperRename(state) =>
      var t, rest := h.at.unpublished[0], h.at.unpublished[1..];
      SetAt(w.(states := w.states[t := StateFile(Acked(h, t), h.started, state)]),
            if rest == [] then Idle else Publishing(rest))
    case HelperCrash =>
      w.(helper := h.(at := Down, acknowledged := map[]))
    case _ => w
  }

  // ---------- proxy ----------

  ghost predicate ProxyEnabled(w: World, s: Step) {
    match s
    case ProxySpawn(tool, _, _, send) => tool !in w.proxies && CanSend(w, tool, send)
    case ProxyControl(tool, _, _, send) =>
      tool in w.proxies && w.proxies[tool].at.Waiting? && CanSend(w, tool, send)
    case ProxyRead(tool, recent) =>
      tool in w.proxies && w.proxies[tool].at.Polling? && (recent ==> tool in w.states)
    case ProxyDecide(tool, _, send) =>
      tool in w.proxies && w.proxies[tool].at.Deciding? && (!Resends(w.proxies[tool], s.now) ==> CanSend(w, tool, send))
    case ProxyReconcile(tool, _, send) =>
      tool in w.proxies && w.proxies[tool].at.Reconciling? && CanSend(w, tool, send)
    case ProxyCrash(tool) => tool in w.proxies
    case _ => false
  }

  function SpawnedProxy(autoStart: bool, now: nat, send: SendResult): Proxy {
    var sent := autoStart && send.Sent?;
    Proxy(Waiting, autoStart, if sent then Queued(Start, now, send) else None, None, false,
          if sent then Some(now) else None)
  }

  /** A lifecycle request from the user: the old pending command is forgotten either way. */
  function Requested(p: Proxy, c: Command, now: nat, send: SendResult): Proxy {
    p.(at := Polling, desired := c.WantsRunning(), satisfied := false,
       pending := Queued(c, now, send), lastIssue := Some(now))
  }

  /** The command a control message queues. */
  function CommandFor(control: Control): Option<Command> {
    match control
    case ToStart => Some(Start)
    case ToStop => Some(Stop)
    case ToRestart => Some(Restart)
    case ToSample => Some(SampleMemory)
    case Timeout => None
    case Shutdown => Some(Stop)
  }

  function Received(p: Proxy, control: Control, now: nat, send: SendResult): Proxy {
    match control
    case ToStart => Requested(p, Start, now, send)
    case ToStop => Requested(p, Stop, now, send)
    case ToRestart => Requested(p, Restart, now, send)
    case ToSample => p.(at := Polling)
    case Timeout => p.(at := Polling)
    case Shutdown => p
  }

  /** A proxy that is told to shut down queues a stop and ends. */
  function Receive(w: World, tool: ToolKey, control: Control, now: nat, send: SendResult): World
    requires tool in w.proxies
  {
    var w' := if CommandFor(control).Some? then Queue(w, tool, CommandFor(control).value, send) else w;
    if control.Shutdown? then w'.(proxies := w.proxies - {tool})
    else SetProxy(w', tool, Received(w.proxies[tool], control, now, send))
  }

  function Matches(desired: bool, state: ToolState): bool {
    if desired then state.Running? else state.Stopped?
  }

  /** Look at a fresh state file and drop an acknowledged command. */
  function Observe(p: Proxy, view: StateFile): Proxy {
    var matches := Matches(p.desired, view.state);
    var changed := p.helperStarted.Some? && p.helperStarted.value != view.helperStarted;
    p.(at := Deciding(view, p.helperStarted.None?, changed, matches),
       helperStarted := Some(view.helperStarted),
       pending := if p.pending.Some? && view.acknowledged >= p.pending.value.id then None else p.pending,
       satisfied := p.satisfied || matches)
  }

  /** A state file that is missing, stale or unreadable ends the turn. */
  function ReadState(w: World, tool: ToolKey, recent: bool): World
    requires tool in w.proxies && (recent ==> tool in w.states)
  {
    SetProxy(w, tool, if recent then Observe(w.proxies[tool], w.states[tool]) else w.proxies[tool].(at := Waiting))
  }

  predicate Reissues(p: Proxy)
    requires p.at.Deciding?
  {
    p.at.changed || (p.at.firstSeen && !p.at.matches && p.pending.None?)
  }

  predicate Resends(p: Proxy, now: nat)
    requires p.at.Deciding?
  {
    && !Reissues(p)
    && p.pending.Some?
    && p.at.view.acknowledged < p.pending.value.id
    && SaturatingSub(now, p.pending.value.issued) >= RESEND_AFTER_MS
  }

  /** The proxy after it has reissued, resent, or left its command alone. */
  function Decided(p: Proxy, now: nat, send: SendResult): Proxy
    requires p.at.Deciding?
  {
    var next := p.(at := Reconciling(p.at.matches));
    if Reissues(p) then
      next.(satisfied := !p.at.changed && p.satisfied,
            pending := Queued(DesiredCommand(p.desired), now, send), lastIssue := Some(now))
    else if Resends(p, now) then
      next.(pending := Some(p.pending.value.(issued := now)), lastIssue := Some(now))
    else
      next
  }

  /** Reissue or resend (src/core/supervisor.rs:703-766). */
  function Decide(w: World, tool: ToolKey, now: nat, send: SendResult): World
    requires tool in w.proxies && w.proxies[tool].at.Deciding?
  {
    var p := w.proxies[tool];
    var w' :=
      if Reissues(p) then Queue(w, tool, DesiredCommand(p.desired), send)
      else if Resends(p, now) && send.Sent? then Deliver(w, Ticket(tool, p.pending.value.id), p.pending.value.command)
      else w;
    SetProxy(w', tool, Decided(p, now, send))
  }

  predicate Reconciles(p: Proxy, now: nat)
    requires p.at.Reconciling?
  {
    && p.pending.None? && !p.satisfied && !p.at.matches
    && (p.lastIssue.None? || SaturatingSub(now, p.lastIssue.value) >= RECONCILE_AFTER_MS)
  }

  function Reconciled(p: Proxy, now: nat, send: SendResult): Proxy
    requires p.at.Reconciling?
  {
    if Reconciles(p, now) then
      p.(at := Waiting, pending := Queued(DesiredCommand(p.desired), now, send), lastIssue := Some(now))
    else
      p.(at := Waiting)
  }

  /** Ask again for a state that was not reached (src/core/supervisor.rs:767-789). */
  function Reconcile(w: World, tool: ToolKey, now: nat, send: SendResult): World
    requires tool in w.proxies && w.proxies[tool].at.Reconciling?
  {
    var p := w.proxies[tool];
    var w' := if Reconciles(p, now) then Queue(w, tool, DesiredCommand(p.desired), send) else w;
    SetProxy(w', tool, Reconciled(p, now, send))
  }

  function ProxyDo(w: World, s: Step): World
    requires ProxyEnabled(w, s)
  {
    match s
    case ProxySpawn(tool, autoStart, now, send) =>
      SetProxy(if autoStart then Queue(w, tool, Start, send) else w, tool, SpawnedProxy(autoStart, now, send))
    case ProxyControl(tool, control, now, send) => Receive(w, tool, control, now, send)
    case ProxyRead(tool, recent) => ReadState(w, tool, recent)
    case ProxyDecide(tool, now, send) => Decide(w, tool, now, send)
    case ProxyReconcile(tool, now, send) => Reconcile(w, tool, now, send)
    // the manager is killed between two steps of the proxy
    case ProxyCrash(tool) => w.(proxies := w.proxies - {tool})
    case _ => w
  }

  // ---------- behaviours ----------

  ghost predicate Enabled(w: World, s: Step) {
    HelperEnabled(w, s) || ProxyEnabled(w, s)
  }

  ghost function Do(w: World, s: Step): World
    requires Enabled(w, s)
  {
    if HelperEnabled(w, s) then HelperDo(w, s) else ProxyDo(w, s)
  }

  ghost predicate Init(w: World) {
    && w.commands == map[] && w.claimed == map[] && w.states == map[]
    && w.issued == map[] && w.log == [] && w.proxies == map[]
    && w.helper == Helper(Down, 0, 0, map[], false)
  }

  /** `worlds` is the run that `steps` produces. */
  ghost predicate IsRun(worlds: seq<World>, steps: seq<Step>) {
    && |worlds| == |steps| + 1
    && Init(worlds[0])
    && forall i | 0 <= i < |steps| :: Enabled(worlds[i], steps[i]) && worlds[i + 1] == Do(worlds[i], steps[i])
  }

  // ---------- failed claims ----------

  /** `x` may run before `y`: ids do not decrease, except from a memory sample to a lifecycle command. */
  ghost predicate InOrder(issued: map<Ticket, Command>, x: Ticket, y: Ticket) {
    || x.id <= y.id
    || (x in issued && y in issued && issued[x].SampleMemory? && issued[y].Lifecycle())
  }

  /** The failed claim of `s` lets a command of the same tool that will still run overtake out of order. */
  ghost predicate Disorders(w: World, s: Step) {
    && s.HelperSkip? && w.helper.at.Passing? && w.helper.at.todo != []
    && var k, rest := w.helper.at.todo[0], w.helper.at.todo[1..];
       && k.tool in w.managed
       && exists x | x in rest :: x.tool == k.tool && Acked(w.helper, x.tool) < x.id && !InOrder(w.issued, x, k)
  }

  /** The failed claim of `s` lets a command of the same tool overtake one that has not run. */
  ghost predicate Loses(w: World, s: Step) {
    && s.HelperSkip? && w.helper.at.Passing? && w.helper.at.todo != []
    && var k, rest := w.helper.at.todo[0], w.helper.at.todo[1..];
       && k.tool in w.managed && k !in Done(w.log)
       && exists x | x in rest :: x.tool == k.tool
  }

  /** A run in which no failed claim breaks the order. */
  ghost predicate IsOrderlyRun(worlds: seq<World>, steps: seq<Step>) {
    IsRun(worlds, steps) && forall i | 0 <= i < |steps| :: !Disorders(worlds[i], steps[i])
  }

  /** A run in which no failed claim passes over a command for good. */
  ghost predicate IsLosslessRun(worlds: seq<World>, steps: seq<Step>) {
    IsRun(worlds, steps) && forall i | 0 <= i < |steps| :: !Loses(worlds[i], steps[i])
  }
}
