/**
 Stopping a process tree: the polling loops that ask for a graceful stop, wait, force, and reap.

 The operating system may give any answer to any question at any time; calls take no time and only
 sleeping does, by at least what was asked for and at most `slack` more.  Times are milliseconds.
 */
module Stopping {
  import opened Basics
  import opened Worker

  datatype Answer = Yes | No | Failed

  /** The process guard, the child handle and the clock of one managed process.  The history says what
      this stop has seen and done: the answer to the graceful request, the last answer about the tree, whether
      and when one said that it is empty, a forced stop, when it came and whether it failed, a direct kill,
      when it came and whether the child had been seen to exit, and how many queries of the child failed. */
  class System {
    const slack: nat
    var now: nat
    var exited: bool
    ghost var asked: Option<Answer>
    ghost var lastAnswer: Option<Answer>
    ghost var sawEmpty: bool
    ghost var emptyAt: nat
    ghost var forced: bool
    ghost var forcedAt: nat
    ghost var forceFailed: bool
    ghost var killed: bool
    ghost var killedAt: nat
    ghost var killedExited: bool
    ghost var queryErrors: nat

    ghost predicate Fresh()
      reads this
    {
      asked == None && lastAnswer == None && !sawEmpty && !forced && !forceFailed && !killed && queryErrors == 0
    }

    constructor (slack: nat, now: nat)
      ensures this.slack == slack && this.now == now && !exited && Fresh()
    {
      this.slack, this.now := slack, now;
      exited, asked, lastAnswer, sawEmpty, forced, forceFailed := false, None, None, false, false, false;
      killed, queryErrors := false, 0;
    }

    /** Starts the history of another stop. */
    ghost method Forget()
      modifies this`asked, this`lastAnswer, this`sawEmpty, this`forced, this`forceFailed, this`killed
      modifies this`queryErrors
      ensures Fresh()
    {
      asked, lastAnswer, sawEmpty, forced, forceFailed, killed := None, None, false, false, false, false;
      queryErrors := 0;
    }

    method RequestGracefulStop() returns (a: Answer)
      modifies this`asked
      ensures asked == Some(a)
    {
      a := *;
      asked := Some(a);
    }

    method IsTreeRunning() returns (a: Answer)
      modifies this`lastAnswer, this`sawEmpty, this`emptyAt
      ensures lastAnswer == Some(a)
      ensures sawEmpty == (old(sawEmpty) || a.No?) && emptyAt == if a.No? then now else old(emptyAt)
    {
      a := *;
      lastAnswer, sawEmpty := Some(a), sawEmpty || a.No?;
      emptyAt := if a.No? then now else emptyAt;
    }

    method ForceStop() returns (ok: bool)
      modifies this`forced, this`forcedAt, this`forceFailed
      ensures forced && forcedAt == now && forceFailed == !ok
    {
      ok := *;
      forced, forcedAt, forceFailed := true, now, !ok;
    }

    method KillChild() returns (ok: bool)
      modifies this`killed, this`killedAt, this`killedExited
      ensures killed && killedAt == now && killedExited == exited
    {
      ok := *;
      killed, killedAt, killedExited := true, now, exited;
    }

    /** `Child::try_wait`: once an exit status was obtained it is remembered. */
    method TryWait() returns (a: Answer)
      modifies this`exited, this`queryErrors
      ensures exited == (old(exited) || a.Yes?) && (old(exited) ==> a.Yes?)
      ensures queryErrors == old(queryErrors) + if a.Failed? then 1 else 0
    {
      a := *;
      if exited {
        a := Yes;
      }
      exited := exited || a.Yes?;
      queryErrors := queryErrors + if a.Failed? then 1 else 0;
    }

    method Sleep(ms: nat)
      modifies this`now
      ensures old(now) + ms <= now <= old(now) + ms + slack
    {
      var extra: nat :| extra <= slack;
      now := now + ms + extra;
    }

    /** Polls the tree until it is seen empty or the deadline passes.  The first answer that it is empty ends the
        wait at once. */
    method AwaitEmptyTree(timeout: nat, reap: bool) returns (empty: bool)
      modifies this`now, this`exited, this`queryErrors, this`lastAnswer, this`sawEmpty, this`emptyAt
      ensures empty ==> sawEmpty && lastAnswer == Some(No) && emptyAt == now
      ensures !empty ==> now >= old(now) + timeout && sawEmpty == old(sawEmpty)
      ensures old(sawEmpty) ==> sawEmpty
      ensures (old(exited) ==> exited) && (!reap ==> exited == old(exited) && queryErrors == old(queryErrors))
      ensures queryErrors >= old(queryErrors)
      ensures old(now) <= now <= old(now) + timeout + 50 + slack
    {
      var deadline := now + timeout;
      empty := false;
      while now < deadline && !empty
        invariant empty ==> sawEmpty && lastAnswer == Some(No) && emptyAt == now
        invariant !empty ==> sawEmpty == old(sawEmpty)
        invariant old(sawEmpty) ==> sawEmpty
        invariant (old(exited) ==> exited) && (!reap ==> exited == old(exited) && queryErrors == old(queryErrors))
        invariant queryErrors >= old(queryErrors)
        invariant old(now) <= now <= deadline + 50 + slack
        decreases deadline - now, !empty
      {
        if reap {
          var _ := TryWait();
        }
        var a := IsTreeRunning();
        if a.No? {
          empty := true;
        } else {
          Sleep(50);
        }
      }
    }

    /** `wait_for_child_exit`.  It gives up only when the whole timeout has passed or a query failed. */
    method WaitForChildExit(timeout: nat) returns (observed: bool)
      modifies this`now, this`exited, this`queryErrors
      ensures observed == exited && (old(exited) ==> observed && now == old(now))
      ensures !observed ==> now >= old(now) + timeout || queryErrors > old(queryErrors)
      ensures old(queryErrors) <= queryErrors <= old(queryErrors) + if observed then 0 else 1
      ensures old(now) <= now <= old(now) + timeout + 20 + slack
    {
      var deadline := now + timeout;
      observed := false;
      var polling := true;
      while polling
        invariant polling ==> !observed && exited == old(exited) && (exited ==> now == old(now))
        invariant polling ==> queryErrors == old(queryErrors)
        invariant !polling ==> observed == exited && (observed || now >= deadline || queryErrors > old(queryErrors))
        invariant old(queryErrors) <= queryErrors <= old(queryErrors) + if observed then 0 else 1
        invariant old(exited) ==> exited && now == old(now)
        invariant old(now) <= now <= deadline + 20 + slack
        decreases polling, deadline - now
      {
        var a := TryWait();
        if a.Yes? {
          observed, polling := true, false;
        } else if a.No? && now < deadline {
          Sleep(20);
        } else {
          polling := false;
        }
      }
    }

    /** The first half of `stop_process`: ask, wait, and force. */
    method EndTree(timeout: nat) returns (failed: bool)
      modifies this
      ensures old(now) <= now <= old(now) + if asked == Some(Yes) then timeout + 50 + slack else 0
      ensures asked.Some? && lastAnswer.Some? && (forced <==> lastAnswer != Some(No))
      ensures forced ==> forcedAt == now
      ensures forced && asked == Some(Yes) ==> sawEmpty || forcedAt >= old(now) + timeout
      ensures failed == (forced && forceFailed) && !killed
    {
      Forget();
      var graceful := RequestGracefulStop();
      if graceful.Yes? {
        var _ := AwaitEmptyTree(timeout, true);
      }
      var _ := TryWait();
      failed := false;
      var running := IsTreeRunning();
      if !running.No? {
        var ok := ForceStop();
        failed := !ok;
      }
    }

    /** The second half: reap the child, killing it if that is needed. */
    method EndChild(failed: bool) returns (fate: Fate)
      requires !killed
      modifies this`now, this`exited, this`queryErrors, this`killed, this`killedAt, this`killedExited
      ensures old(now) <= now <= old(now) + 2 * (2_000 + 20 + slack)
      ensures failed ==> killed
      ensures killed && !failed ==> !killedExited && (killedAt >= old(now) + 2_000 || queryErrors > 0)
      ensures !killed ==> exited
      ensures fate.ObservedExit? <==> exited
      ensures fate.Reaper? ==> killed && (now >= killedAt + 2_000 || queryErrors > 0)
    {
      var observed := false;
      if !failed {
        observed := WaitForChildExit(2_000);
      }
      if !observed {
        var ok := KillChild();
        if !ok {
          var _ := TryWait();
        }
      }
      observed := WaitForChildExit(2_000);
      fate := if observed then ObservedExit else Reaper;
    }

    /** `stop_process` for a held child.  Whatever the guard answers it ends in bounded time.  The tree is forced
        down exactly when the last answer was not that it is empty, and only after its full timeout if it had
        agreed to stop and was never seen empty; one that did not agree gets no time.  The child is killed
        directly exactly when forcing failed, or when it was not seen to exit although it had two seconds or
        could not be asked; and it has been seen to exit or, after such a kill and as long a wait, was left to
        a reaper. */
    method StopProcess(timeout: nat) returns (fate: Fate)
      modifies this
      ensures now <= old(now) + (if asked == Some(Yes) then timeout + 50 + slack else 0) + 2 * (2_000 + 20 + slack)
      ensures asked.Some? && lastAnswer.Some? && (forced <==> lastAnswer != Some(No))
      ensures forced && asked == Some(Yes) ==> sawEmpty || forcedAt >= old(now) + timeout
      ensures forced && asked != Some(Yes) ==> forcedAt == old(now)
      ensures forced && forceFailed ==> killed
      ensures killed && !(forced && forceFailed) ==>
                !killedExited && (queryErrors > 0 || killedAt >= (if forced then forcedAt else old(now)) + 2_000)
      ensures !killed ==> exited
      ensures fate.ObservedExit? <==> exited
      ensures fate.Reaper? ==> killed && (now >= killedAt + 2_000 || queryErrors > 0)
    {
      var failed := EndTree(timeout);
      fate := EndChild(failed);
    }

    /** `stop_remaining_process_tree`, after the root process has exited.  It asks for a graceful stop unless the
        first answer was that the tree is empty, and forces exactly when the last one was not. */
    method StopRemainingTree(timeout: nat)
      modifies this
      ensures now <= old(now) + if asked == Some(Yes) then timeout + 50 + slack else 0
      ensures lastAnswer.Some? && (forced <==> lastAnswer != Some(No))
      ensures forced ==> asked.Some?
      ensures forced && asked == Some(Yes) ==> sawEmpty || forcedAt >= old(now) + timeout
      ensures forced && asked != Some(Yes) ==> forcedAt == old(now)
      ensures sawEmpty <==> lastAnswer == Some(No)
      ensures sawEmpty ==> now == emptyAt
      ensures exited == old(exited) && !killed
    {
      Forget();
      var running := IsTreeRunning();
      if running.No? {
        return;
      }
      var graceful := RequestGracefulStop();
      if graceful.Yes? {
        var empty := AwaitEmptyTree(timeout, false);
        if empty {
          return;
        }
      }
      running := IsTreeRunning();
      if !running.No? {
        var _ := ForceStop();
      }
    }
  }
}
