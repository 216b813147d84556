/** What a request makes of the directory and of the proxy, in every run. */
module ElevatedRequests {
  import opened Basics
  import opened ElevatedProtocol
  import opened ElevatedBase

  /** `k` was issued as `c` and stands in the directory, and nothing else was issued. */
  ghost predicate Issues(w: World, w': World, k: Ticket, c: Command) {
    && k !in w.issued && w'.issued == w.issued[k := c]
    && k in w'.commands && w'.commands[k] == c && w'.commands == w.commands[k := c]
  }

  lemma QueueIssues(w: World, tool: ToolKey, c: Command, id: nat)
    requires FilesInv(w) && Fresh(w, tool, id)
    ensures Issues(w, Queue(w, tool, c, Sent(id)), Ticket(tool, id), c)
  {
    assert Ticket(tool, id) !in w.issued;
  }

  lemma IssuesLatest(w: World, w': World, tool: ToolKey, id: nat, c: Command)
    requires Fresh(w, tool, id) && Issues(w, w', Ticket(tool, id), c) && c.Lifecycle()
    ensures Latest(w'.issued, tool, id)
  {
  }

  /** What the user wants after a request. */
  ghost predicate Asked(p: Proxy, w': World, tool: ToolKey, wanted: bool, pending: Option<Pending>, now: nat) {
    && tool in w'.proxies
    && var p' := w'.proxies[tool];
       p'.desired == wanted && p'.pending == pending && !p'.satisfied && p'.lastIssue == Some(now)
       && p'.helperStarted == p.helperStarted && p'.at.Polling?
  }

  /** In every run: a Start, Stop or Restart that could be sent puts exactly that command into the directory, as
      the latest of its tool, leaves exactly it pending, and sets what is wanted. */
  lemma RequestIssues(worlds: seq<World>, steps: seq<Step>, n: nat)
    requires IsRun(worlds, steps) && n < |steps| && steps[n].ProxyControl? && steps[n].send.Sent?
    ensures var s, w, w' := steps[n], worlds[n], worlds[n + 1];
            var k, p, id := Ticket(s.tool, s.send.id), w.proxies[s.tool], s.send.id;
            && (s.control == ToStart ==> Issues(w, w', k, Start) && Latest(w'.issued, s.tool, id)
                                         && Asked(p, w', s.tool, true, Some(Pending(id, Start, s.now)), s.now))
            && (s.control == ToStop ==> Issues(w, w', k, Stop) && Latest(w'.issued, s.tool, id)
                                        && Asked(p, w', s.tool, false, Some(Pending(id, Stop, s.now)), s.now))
            && (s.control == ToRestart ==> Issues(w, w', k, Restart) && Latest(w'.issued, s.tool, id)
                                           && Asked(p, w', s.tool, true, Some(Pending(id, Restart, s.now)), s.now))
  {
    RunKeepsBase(worlds, steps, n);
    var s, w := steps[n], worlds[n];
    QueueIssues(w, s.tool, Start, s.send.id);
    QueueIssues(w, s.tool, Stop, s.send.id);
    QueueIssues(w, s.tool, Restart, s.send.id);
    assert !HelperEnabled(w, s) && worlds[n + 1] == ProxyDo(w, s);
    if s.control == ToStart {
      IssuesLatest(w, worlds[n + 1], s.tool, s.send.id, Start);
    } else if s.control == ToStop {
      IssuesLatest(w, worlds[n + 1], s.tool, s.send.id, Stop);
    } else if s.control == ToRestart {
      IssuesLatest(w, worlds[n + 1], s.tool, s.send.id, Restart);
    }
  }

  /** In every run: quitting the manager issues a stop as the latest command and ends the proxy; a memory sample
      is issued without touching what is wanted or pending; and a turn without a message issues nothing. */
  lemma OtherControlsIssue(worlds: seq<World>, steps: seq<Step>, n: nat)
    requires IsRun(worlds, steps) && n < |steps| && steps[n].ProxyControl? && steps[n].send.Sent?
    ensures var s, w, w' := steps[n], worlds[n], worlds[n + 1];
            var k, p := Ticket(s.tool, s.send.id), w.proxies[s.tool];
            && (s.control == Shutdown ==>
                  Issues(w, w', k, Stop) && Latest(w'.issued, s.tool, s.send.id) && s.tool !in w'.proxies)
            && (s.control == ToSample ==>
                  Issues(w, w', k, SampleMemory) && s.tool in w'.proxies && w'.proxies[s.tool] == p.(at := Polling))
            && (s.control == Timeout ==>
                  w'.issued == w.issued && w'.commands == w.commands && s.tool in w'.proxies
                  && w'.proxies[s.tool] == p.(at := Polling))
  {
    RunKeepsBase(worlds, steps, n);
    var s, w := steps[n], worlds[n];
    QueueIssues(w, s.tool, Stop, s.send.id);
    QueueIssues(w, s.tool, SampleMemory, s.send.id);
    assert !HelperEnabled(w, s) && worlds[n + 1] == ProxyDo(w, s);
    if s.control == Shutdown {
      IssuesLatest(w, worlds[n + 1], s.tool, s.send.id, Stop);
    }
  }

  /** A request that could not be sent is remembered as a wish all the same, and as an attempt; the command that
      was pending is forgotten.  Other messages do what they do when they are sent, except for the command. */
  lemma FailedRequestIsRemembered(worlds: seq<World>, steps: seq<Step>, n: nat)
    requires IsRun(worlds, steps) && n < |steps| && steps[n].ProxyControl? && steps[n].send.Failed?
    ensures var s, w, w' := steps[n], worlds[n], worlds[n + 1];
            var p := w.proxies[s.tool];
            && w'.issued == w.issued && w'.commands == w.commands
            && (s.control == ToStart || s.control == ToRestart ==> Asked(p, w', s.tool, true, None, s.now))
            && (s.control == ToStop ==> Asked(p, w', s.tool, false, None, s.now))
            && (s.control == Shutdown ==> s.tool !in w'.proxies)
            && (s.control == ToSample || s.control == Timeout ==>
                  s.tool in w'.proxies && w'.proxies[s.tool] == p.(at := Polling))
  {
    assert !HelperEnabled(worlds[n], steps[n]) && worlds[n + 1] == ProxyDo(worlds[n], steps[n]);
  }

  /** A turn that finds no state file, or one that is stale or unreadable, ends there: the proxy waits for its next
      message, and nothing else has changed. */
  lemma MissingStateEndsTurn(worlds: seq<World>, steps: seq<Step>, n: nat)
    requires IsRun(worlds, steps) && n < |steps| && steps[n].ProxyRead? && !steps[n].recent
    ensures var tool, w := steps[n].tool, worlds[n];
            tool in w.proxies
            && worlds[n + 1] == w.(proxies := w.proxies[tool := w.proxies[tool].(at := Waiting)])
  {
    assert !HelperEnabled(worlds[n], steps[n]) && worlds[n + 1] == ProxyDo(worlds[n], steps[n]);
  }

  /** A proxy that is to start its tool by itself begins by issuing a start; another issues nothing and wants
      the tool stopped. */
  lemma SpawnIssues(worlds: seq<World>, steps: seq<Step>, n: nat)
    requires IsRun(worlds, steps) && n < |steps| && steps[n].ProxySpawn?
    ensures var s, w, w' := steps[n], worlds[n], worlds[n + 1];
            && s.tool in w'.proxies
            && w'.proxies[s.tool].desired == s.autoStart && w'.proxies[s.tool].helperStarted.None?
            && !w'.proxies[s.tool].satisfied
            && if s.autoStart && s.send.Sent? then
                 && Issues(w, w', Ticket(s.tool, s.send.id), Start)
                 && w'.proxies[s.tool].pending == Some(Pending(s.send.id, Start, s.now))
                 && w'.proxies[s.tool].lastIssue == Some(s.now)
               else
                 && w'.issued == w.issued && w'.commands == w.commands
                 && w'.proxies[s.tool].pending.None? && w'.proxies[s.tool].lastIssue.None?
  {
    RunKeepsBase(worlds, steps, n);
    var s, w := steps[n], worlds[n];
    if s.send.Sent? {
      QueueIssues(w, s.tool, Start, s.send.id);
    }
    assert !HelperEnabled(w, s) && worlds[n + 1] == ProxyDo(w, s);
  }
}
