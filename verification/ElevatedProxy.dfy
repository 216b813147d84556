/** The proxy thread of one administrator tool, as the loop body that runs it. */
module ElevatedProxy {
  import opened Basics
  import opened ElevatedProtocol

  // ---------- what a turn writes ----------

  type Files = seq<(Ticket, Command)>

  /** What a control message makes the proxy write. */
  function ReceivedSend(tool: ToolKey, control: Control, send: SendResult): Files {
    if CommandFor(control).Some? && send.Sent? then [(Ticket(tool, send.id), CommandFor(control).value)] else []
  }

  /** What `Decide` writes. */
  function DecidedSend(tool: ToolKey, p: Proxy, now: nat, send: SendResult): Files
    requires p.at.Deciding?
  {
    if send.Failed? then []
    else if Reissues(p) then [(Ticket(tool, send.id), DesiredCommand(p.desired))]
    else if Resends(p, now) then [(Ticket(tool, p.pending.value.id), p.pending.value.command)]
    else []
  }

  /** What `Reconcile` writes. */
  function ReconciledSend(tool: ToolKey, p: Proxy, now: nat, send: SendResult): Files
    requires p.at.Reconciling?
  {
    if send.Sent? && Reconciles(p, now) then [(Ticket(tool, send.id), DesiredCommand(p.desired))] else []
  }

  /** What a proxy writes after it has found a fresh state file. */
  function FollowUpSends(tool: ToolKey, p: Proxy, state: StateFile,
                         t1: nat, s1: SendResult, t2: nat, s2: SendResult): Files
  {
    var observed := Observe(p, state);
    DecidedSend(tool, observed, t1, s1) + ReconciledSend(tool, Decided(observed, t1, s1), t2, s2)
  }

  /** The proxy it then is. */
  function FollowUp(p: Proxy, state: StateFile, t1: nat, s1: SendResult, t2: nat, s2: SendResult): Proxy {
    Reconciled(Decided(Observe(p, state), t1, s1), t2, s2)
  }

  lemma FilesAssociate(a: Files, b: Files, c: Files)
    ensures (a + b) + c == a + (b + c)
  {
  }

  /** What a whole turn writes, and the proxy it leaves behind. */
  function TurnSends(tool: ToolKey, p: Proxy, control: Control, t0: nat, s0: SendResult, view: Option<StateFile>,
                     t1: nat, s1: SendResult, t2: nat, s2: SendResult): Files
  {
    ReceivedSend(tool, control, s0) +
    if view.None? then [] else FollowUpSends(tool, Received(p, control, t0, s0), view.value, t1, s1, t2, s2)
  }

  function TurnState(p: Proxy, control: Control, t0: nat, s0: SendResult, view: Option<StateFile>,
                     t1: nat, s1: SendResult, t2: nat, s2: SendResult): Proxy
  {
    var received := Received(p, control, t0, s0);
    if view.None? then received.(at := Waiting)
    else FollowUp(received, view.value, t1, s1, t2, s2)
  }

  // ---------- the program ----------

  /** The proxy's local state.  `sent` is every command file it has asked to be written, resent ones
      included. */
  class ProxyThread {
    const tool: ToolKey
    var desired: bool
    var pending: Option<Pending>
    var helperStarted: Option<nat>
    var satisfied: bool
    var lastIssue: Option<nat>
    ghost var sent: seq<(Ticket, Command)>

    ghost function View(at: ProxyPoint): Proxy
      reads this
    {
      Proxy(at, desired, pending, helperStarted, satisfied, lastIssue)
    }

    constructor (tool: ToolKey, autoStart: bool, now: nat, send: SendResult)
      ensures View(Waiting) == SpawnedProxy(autoStart, now, send) && this.tool == tool
      ensures sent == if autoStart && send.Sent? then [(Ticket(tool, send.id), Start)] else []
    {
      this.tool := tool;
      desired, pending, helperStarted, satisfied, lastIssue := autoStart, None, None, false, None;
      sent := [];
      new;
      if autoStart {
        pending := QueueCommand(Start, now, send);
        if pending.Some? {
          lastIssue := Some(now);
        }
      }
    }

    /** `queue_elevated_command`: the command to wait for, or none if it could not be written. */
    method QueueCommand(c: Command, now: nat, send: SendResult) returns (queued: Option<Pending>)
      modifies this`sent
      ensures queued == Queued(c, now, send)
      ensures sent == old(sent) + if send.Sent? then [(Ticket(tool, send.id), c)] else []
    {
      queued := None;
      if send.Sent? {
        sent := sent + [(Ticket(tool, send.id), c)];
        queued := Some(Pending(send.id, c, now));
      }
    }

    /** One control message, or none in time. */
    method Receive(control: Control, now: nat, send: SendResult) returns (stopping: bool)
      modifies this
      ensures stopping <==> control.Shutdown?
      ensures !stopping ==> View(Polling) == Received(old(View(Waiting)), control, now, send)
      ensures sent == old(sent) + ReceivedSend(tool, control, send)
    {
      stopping := false;
      match control {
        case ToStart => Request(Start, now, send);
        case ToStop => Request(Stop, now, send);
        case ToRestart => Request(Restart, now, send);
        case ToSample => var _ := QueueCommand(SampleMemory, now, send);
        case Timeout =>
        case Shutdown =>
          var _ := QueueCommand(Stop, now, send);
          stopping := true;
      }
    }

    method Request(c: Command, now: nat, send: SendResult)
      requires c.Lifecycle()
      modifies this
      ensures View(Polling) == Requested(old(View(Waiting)), c, now, send)
      ensures sent == old(sent) + if send.Sent? then [(Ticket(tool, send.id), c)] else []
    {
      desired, satisfied := !c.Stop?, false;
      pending := QueueCommand(c, now, send);
      lastIssue := Some(now);
    }

    /** What was read from a fresh state file; the result is what the rest of the turn looks at. */
    method Look(state: StateFile) returns (at: ProxyPoint)
      modifies this
      ensures View(at) == Observe(old(View(Polling)), state) && at.Deciding?
      ensures sent == old(sent)
    {
      var firstSeen := helperStarted.None?;
      var changed := helperStarted.Some? && helperStarted.value != state.helperStarted;
      helperStarted := Some(state.helperStarted);
      if pending.Some? && state.acknowledged >= pending.value.id {
        pending := None;
      }
      var matches := if desired then state.state.Running? else state.state.Stopped?;
      if !satisfied && matches {
        satisfied := true;
      }
      at := Deciding(state, firstSeen, changed, matches);
    }

    /** Reissue to a new helper, or resend what was not acknowledged in time. */
    method Insist(at: ProxyPoint, now: nat, send: SendResult)
      requires at.Deciding?
      modifies this
      ensures View(Reconciling(at.matches)) == Decided(old(View(at)), now, send)
      ensures sent == old(sent) + DecidedSend(tool, old(View(at)), now, send)
    {
      if at.changed {
        satisfied := false;
        pending := QueueCommand(if desired then Start else Stop, now, send);
        lastIssue := Some(now);
      } else if at.firstSeen && !at.matches && pending.None? {
        pending := QueueCommand(if desired then Start else Stop, now, send);
        lastIssue := Some(now);
      } else if pending.Some? && at.view.acknowledged < pending.value.id
                && SaturatingSub(now, pending.value.issued) >= RESEND_AFTER_MS {
        if send.Sent? {
          sent := sent + [(Ticket(tool, pending.value.id), pending.value.command)];
        }
        pending := Some(pending.value.(issued := now));
        lastIssue := Some(now);
      }
    }

    /** Ask again for a state that was not reached. */
    method Settle(matches: bool, now: nat, send: SendResult)
      modifies this
      ensures View(Waiting) == Reconciled(old(View(Reconciling(matches))), now, send)
      ensures sent == old(sent) + ReconciledSend(tool, old(View(Reconciling(matches))), now, send)
    {
      if pending.None? && !satisfied && !matches
         && (lastIssue.None? || SaturatingSub(now, lastIssue.value) >= RECONCILE_AFTER_MS) {
        pending := QueueCommand(if desired then Start else Stop, now, send);
        lastIssue := Some(now);
      }
    }

    /** What follows the reading of a fresh state file. */
    method Answer(state: StateFile, t1: nat, s1: SendResult, t2: nat, s2: SendResult)
      modifies this
      ensures View(Waiting) == FollowUp(old(View(Polling)), state, t1, s1, t2, s2)
      ensures sent == old(sent) + FollowUpSends(tool, old(View(Polling)), state, t1, s1, t2, s2)
    {
      var at := Look(state);
      ghost var observed, before := View(at), sent;
      Insist(at, t1, s1);
      ghost var decided := View(Reconciling(at.matches));
      Settle(at.matches, t2, s2);
      FilesAssociate(before, DecidedSend(tool, observed, t1, s1), ReconciledSend(tool, decided, t2, s2));
    }

    /** One turn of the loop.  `view` is the state file if it could be read and was fresh. */
    method Turn(control: Control, t0: nat, s0: SendResult, view: Option<StateFile>,
                t1: nat, s1: SendResult, t2: nat, s2: SendResult)
      returns (stopping: bool)
      modifies this
      ensures stopping <==> control.Shutdown?
      ensures stopping ==> sent == old(sent) + ReceivedSend(tool, control, s0)
      ensures !stopping ==>
                && View(Waiting) == TurnState(old(View(Waiting)), control, t0, s0, view, t1, s1, t2, s2)
                && sent == old(sent) + TurnSends(tool, old(View(Waiting)), control, t0, s0, view, t1, s1, t2, s2)
    {
      ghost var before := sent;
      stopping := Receive(control, t0, s0);
      if !stopping {
        if view.Some? {
          ghost var received := View(Polling);
          Answer(view.value, t1, s1, t2, s2);
          FilesAssociate(before, ReceivedSend(tool, control, s0),
                         FollowUpSends(tool, received, view.value, t1, s1, t2, s2));
        } else {
          assert ReceivedSend(tool, control, s0) + [] == ReceivedSend(tool, control, s0);
        }
      }
    }
  }

  // ---------- the turn and the steps of the protocol ----------

  function DeliverAll(w: World, files: Files): World
    decreases |files|
  {
    if files == [] then w else DeliverAll(Deliver(w, files[0].0, files[0].1), files[1..])
  }

  /** The files the program writes are those its step adds to the directory. */
  lemma SentIsDelivered(w: World, tool: ToolKey, now: nat, send: SendResult)
    requires tool in w.proxies
    ensures forall control: Control | !control.Shutdown? ::
              Receive(w, tool, control, now, send) ==
              SetProxy(DeliverAll(w, ReceivedSend(tool, control, send)), tool,
                Received(w.proxies[tool], control, now, send))
    ensures w.proxies[tool].at.Deciding? ==>
              Decide(w, tool, now, send) ==
              SetProxy(DeliverAll(w, DecidedSend(tool, w.proxies[tool], now, send)), tool,
                Decided(w.proxies[tool], now, send))
    ensures w.proxies[tool].at.Reconciling? ==>
              Reconcile(w, tool, now, send) ==
              SetProxy(DeliverAll(w, ReconciledSend(tool, w.proxies[tool], now, send)), tool,
                Reconciled(w.proxies[tool], now, send))
  {
  }

  /** Whatever the helper and other proxies do between a proxy's steps, a turn's steps take it where
      `TurnState` says, on the state file that was there when it read. */
  lemma TurnFollowsSteps(tool: ToolKey, control: Control, t0: nat, s0: SendResult, t1: nat, s1: SendResult,
                         t2: nat, s2: SendResult, w0: World, w1: World, w2: World, w3: World)
    requires !control.Shutdown? && tool in w0.proxies
    requires tool in w1.proxies && tool in w2.proxies && tool in w3.proxies && tool in w1.states
    requires w1.proxies[tool] == Receive(w0, tool, control, t0, s0).proxies[tool]
    requires w2.proxies[tool] == ReadState(w1, tool, true).proxies[tool]
    requires w3.proxies[tool] == Decide(w2, tool, t1, s1).proxies[tool]
    ensures Reconcile(w3, tool, t2, s2).proxies[tool] ==
            TurnState(w0.proxies[tool], control, t0, s0, Some(w1.states[tool]), t1, s1, t2, s2)
  {
  }

  // ---------- how often a proxy asks ----------

  /** However its sends fare, a proxy writes at most one command on finding a state file, and so at most
      two in a turn. */
  lemma OneCommandPerTurn(tool: ToolKey, p: Proxy, control: Control, t0: nat, s0: SendResult, state: StateFile,
                          t1: nat, s1: SendResult, t2: nat, s2: SendResult)
    ensures |FollowUpSends(tool, p, state, t1, s1, t2, s2)| <= 1
    ensures |TurnSends(tool, p, control, t0, s0, Some(state), t1, s1, t2, s2)| <= 2
  {
    OneFollowUp(tool, p, state, t1, s1, t2, s2);
    OneFollowUp(tool, Received(p, control, t0, s0), state, t1, s1, t2, s2);
  }

  lemma OneFollowUp(tool: ToolKey, p: Proxy, state: StateFile, t1: nat, s1: SendResult, t2: nat, s2: SendResult)
    ensures |FollowUpSends(tool, p, state, t1, s1, t2, s2)| <= 1
  {
    var observed := Observe(p, state);
    if DecidedSend(tool, observed, t1, s1) != [] {
      assert Decided(observed, t1, s1).pending.Some?;
    }
  }

  /** A request that could be sent is the only thing its turn writes, exactly unless the state file comes
      from a new helper or the turn took two seconds: the id is not acknowledged yet. */
  lemma RequestIsSentOnceExactly(tool: ToolKey, p: Proxy, control: Control, t0: nat, id: nat, state: StateFile,
                                 t1: nat, s1: SendResult, t2: nat, s2: SendResult)
    requires CommandFor(control).Some? && CommandFor(control).value.Lifecycle() && !control.Shutdown?
    requires state.acknowledged < id && s1.Sent?
    ensures TurnSends(tool, p, control, t0, Sent(id), Some(state), t1, s1, t2, s2)
            == [(Ticket(tool, id), CommandFor(control).value)]
       <==> && (p.helperStarted.None? || p.helperStarted == Some(state.helperStarted))
            && SaturatingSub(t1, t0) < 2_000
  {
    var observed := Observe(Received(p, control, t0, Sent(id)), state);
    assert observed.pending.Some? && Decided(observed, t1, s1).pending.Some?;
    var first := ReceivedSend(tool, control, Sent(id));
    assert first == [(Ticket(tool, id), CommandFor(control).value)];
    assert forall more: Files :: |more| > 0 ==> |first + more| > |first|;
    assert first + [] == first;
  }

  /** The state shown is the one wanted. */
  predicate Reached(desired: bool, state: ToolState) {
    (desired && state.Running?) || (!desired && state.Stopped?)
  }

  predicate Elapsed(since: Option<nat>, now: nat, ms: nat) {
    since.None? || SaturatingSub(now, since.value) >= ms
  }

  /** Facing a helper it knows, a proxy writes exactly when its command has been unacknowledged for two
      seconds, or it waits for no command and the state it wants was never reached and is not shown,
      eight seconds after it last asked. */
  lemma KnownHelperIsAskedExactly(tool: ToolKey, p: Proxy, state: StateFile, t1: nat, s1: SendResult, t2: nat,
                                  s2: SendResult)
    requires p.helperStarted == Some(state.helperStarted) && s1.Sent? && s2.Sent?
    ensures FollowUpSends(tool, p, state, t1, s1, t2, s2) != [] <==>
              if p.pending.Some? && state.acknowledged < p.pending.value.id
              then Elapsed(Some(p.pending.value.issued), t1, 2_000)
              else !p.satisfied && !Reached(p.desired, state.state) && Elapsed(p.lastIssue, t2, 8_000)
  {
    var observed := Observe(p, state);
    var decided := Decided(observed, t1, s1);
    assert !Reissues(observed);
    assert decided.satisfied <==> p.satisfied || Reached(p.desired, state.state);
  }

  // ---------- what a turn leaves behind ----------

  /** A proxy that has asked for the state it wants. */
  function HasAsked(p: Proxy, id: nat, now: nat): Proxy {
    var c := if p.desired then Start else Stop;
    p.(pending := Some(Pending(id, c, now)), lastIssue := Some(now))
  }

  /** A known helper that has not acknowledged the pending command: the very command is sent again after two
      seconds, and nothing else happens but that a reached state is noted. */
  lemma UnacknowledgedTurn(tool: ToolKey, p: Proxy, state: StateFile, t1: nat, s1: SendResult, t2: nat, s2: SendResult)
    requires p.helperStarted == Some(state.helperStarted)
    requires p.pending.Some? && state.acknowledged < p.pending.value.id
    ensures var q, late := p.pending.value, SaturatingSub(t1, p.pending.value.issued) >= 2_000;
            var noted := p.(at := Waiting, satisfied := p.satisfied || Reached(p.desired, state.state));
            && FollowUpSends(tool, p, state, t1, s1, t2, s2) ==
               (if late && s1.Sent? then [(Ticket(tool, q.id), q.command)] else [])
            && FollowUp(p, state, t1, s1, t2, s2) ==
               if late then noted.(pending := Some(Pending(q.id, q.command, t1)), lastIssue := Some(t1)) else noted
  {
  }

  /** A known helper that has acknowledged what was pending, if anything: the command is forgotten, and the
      state that is wanted is asked for again if it was never reached, is not shown, and eight seconds passed. */
  lemma AcknowledgedTurn(tool: ToolKey, p: Proxy, state: StateFile, t1: nat, s1: SendResult, t2: nat, id: nat)
    requires p.helperStarted == Some(state.helperStarted)
    requires p.pending.None? || p.pending.value.id <= state.acknowledged
    ensures var settled := p.satisfied || Reached(p.desired, state.state);
            var asks := !settled && (p.lastIssue.None? || SaturatingSub(t2, p.lastIssue.value) >= 8_000);
            var noted := p.(at := Waiting, satisfied := settled, pending := None);
            && FollowUpSends(tool, p, state, t1, s1, t2, Sent(id)) ==
               (if asks then [(Ticket(tool, id), if p.desired then Start else Stop)] else [])
            && FollowUp(p, state, t1, s1, t2, Sent(id)) == if asks then HasAsked(noted, id, t2) else noted
  {
  }

  /** A helper the proxy did not know: a new one is asked at once for the state that is wanted, whatever was
      pending; the first one ever is asked so if it shows another state and nothing is pending. */
  lemma UnknownHelperTurn(tool: ToolKey, p: Proxy, state: StateFile, t1: nat, id: nat, t2: nat, s2: SendResult)
    requires p.helperStarted != Some(state.helperStarted)
    ensures var reached := Reached(p.desired, state.state);
            var open := p.pending.Some? && state.acknowledged < p.pending.value.id;
            var met := p.(at := Waiting, helperStarted := Some(state.helperStarted));
            p.helperStarted.Some? || (!reached && !open) ==>
              && FollowUpSends(tool, p, state, t1, Sent(id), t2, s2) ==
                 [(Ticket(tool, id), if p.desired then Start else Stop)]
              && FollowUp(p, state, t1, Sent(id), t2, s2) ==
                 HasAsked(met.(satisfied := p.helperStarted.None? && p.satisfied), id, t1)
  {
  }

  /** Otherwise the first helper is treated like a known one. */
  lemma FirstHelperTurn(tool: ToolKey, p: Proxy, state: StateFile, t1: nat, s1: SendResult, t2: nat, s2: SendResult)
    requires p.helperStarted.None?
    requires Reached(p.desired, state.state) || (p.pending.Some? && state.acknowledged < p.pending.value.id)
    ensures var known := p.(helperStarted := Some(state.helperStarted));
            && FollowUpSends(tool, p, state, t1, s1, t2, s2) == FollowUpSends(tool, known, state, t1, s1, t2, s2)
            && FollowUp(p, state, t1, s1, t2, s2) == FollowUp(known, state, t1, s1, t2, s2)
  {
  }

  /** A send that fails while a new helper is asked leaves nothing pending and counts as an attempt. */
  lemma FailedAskingTurn(tool: ToolKey, p: Proxy, state: StateFile, t1: nat, t2: nat)
    requires p.helperStarted.Some? && p.helperStarted.value != state.helperStarted
    ensures FollowUpSends(tool, p, state, t1, SendResult.Failed, t2, SendResult.Failed) == []
    ensures var p' := FollowUp(p, state, t1, SendResult.Failed, t2, SendResult.Failed);
            p'.pending.None? && !p'.satisfied && p'.desired == p.desired
            && (p'.lastIssue == Some(t1) || p'.lastIssue == Some(t2))
  {
  }
}
