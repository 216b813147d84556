/** When the walk from the root and from the detached roots misses a member, so that the defensive
    fallback has something to show. */
module ProcessTreeFallback {
  import opened Basics
  import opened ProcessTree
  import opened ProcessTreeReach

  /** Where the walk starts before the fallback, read off the snapshot: the root, and the members whose
      entry names a parent outside the group. */
  function Anchors(root: Pid, entries: seq<Entry>, members: set<Pid>): set<Pid> {
    {root} + set p | p in members && p in ByPid(entries) && ByPid(entries)[p].parent !in members + {root}
  }

  lemma AnchorsAreVisited(root: Pid, entries: seq<Entry>, members: set<Pid>)
    ensures Anchors(root, entries, members) <= DetachedWalk(Tables(entries), root, members).visited
  {
    DetachedWalkCloses(Tables(entries), root, members);
  }

  lemma DetachedWalkExplains(g: Snapshot, root: Pid, members: set<Pid>)
    ensures Explains(g, {root} + DetachedRoots(g, members + {root}, RootWalk(g, root).visited), {},
                     DetachedWalk(g, root, members).visited)
  {
    var w1 := RootWalk(g, root);
    var detached := DetachedRoots(g, members + {root}, w1.visited);
    VisitExplains(g, root, 0, Walk({}, []));
    VisitAllExplains(g, Ordered(detached), 1, w1);
    InOrdered(detached);
  }

  lemma VisitedIsAnchored(root: Pid, entries: seq<Entry>, members: set<Pid>, pid: Pid)
    requires pid in DetachedWalk(Tables(entries), root, members).visited && Present(entries, pid)
    ensures Reachable(entries, Anchors(root, entries, members), pid)
  {
    var g := Tables(entries);
    var starts := {root} + DetachedRoots(g, members + {root}, RootWalk(g, root).visited);
    TablesEffect(entries);
    DetachedWalkExplains(g, root, members);
    var a :| a in starts && Reaches(g, a, pid);
    assert a in Anchors(root, entries, members);
    var path: seq<Pid> :| IsPath(g, path) && path[0] == a && Last(path) == pid;
    PathsAreChains(entries, path);
  }

  lemma AnchoredIsVisited(root: Pid, entries: seq<Entry>, members: set<Pid>, pid: Pid)
    requires Reachable(entries, Anchors(root, entries, members), pid)
    ensures pid in DetachedWalk(Tables(entries), root, members).visited && Present(entries, pid)
  {
    var g, anchors := Tables(entries), Anchors(root, entries, members);
    var chain: seq<Pid> :| IsChain(entries, chain) && chain[0] in anchors && Last(chain) == pid;
    AnchorsAreVisited(root, entries, members);
    DetachedWalkCloses(g, root, members);
    PathsAreChains(entries, chain);
    PathStays(g, DetachedWalk(g, root, members).visited, chain, |chain| - 1);
  }

  lemma DetachedWalkLists(g: Snapshot, root: Pid, members: set<Pid>)
    requires KeysMatch(g)
    ensures OutputSound(g, DetachedWalk(g, root, members))
  {
    var w1 := RootWalk(g, root);
    VisitLists(g, root, 0, Walk({}, []));
    VisitAllLists(g, Ordered(DetachedRoots(g, members + {root}, w1.visited)), 1, w1);
  }

  /** What the two stages before the fallback show. */
  lemma EarlierStagesShowAnchored(root: Pid, entries: seq<Entry>, members: set<Pid>, pid: Pid)
    ensures Shown(DetachedWalk(Tables(entries), root, members).output, pid)
       <==> Reachable(entries, Anchors(root, entries, members), pid)
  {
    var g := Tables(entries);
    TablesEffect(entries);
    DetachedWalkLists(g, root, members);
    if pid in DetachedWalk(g, root, members).visited && Present(entries, pid) {
      VisitedIsAnchored(root, entries, members, pid);
    }
    if Reachable(entries, Anchors(root, entries, members), pid) {
      AnchoredIsVisited(root, entries, members, pid);
    }
  }

  /** Pids the snapshot does not know add nothing to the output. */
  lemma {:induction false} AbsentAddNothing(g: Snapshot, pids: seq<Pid>, depth: nat, w: Walk)
    requires forall p | p in pids :: p in w.visited || p !in g.byPid
    ensures VisitAll(g, pids, depth, w).output == w.output
    decreases |pids|
  {
    if pids != [] {
      assert pids == [pids[0]] + pids[1..];
      AbsentAddNothing(g, pids[1..], depth, Visit(g, pids[0], depth, w));
    }
  }

  /** The fallback adds nothing exactly when every member the snapshot knows is reachable by child edges
      from the root or from a member whose parent is outside the group. */
  lemma FallbackAddsNothingExactly(root: Pid, entries: seq<Entry>, members: set<Pid>)
    ensures Tree(root, entries, members) == DetachedWalk(Tables(entries), root, members).output
       <==> forall p | p in members && Present(entries, p) :: Reachable(entries, Anchors(root, entries, members), p)
  {
    var g := Tables(entries);
    var w := DetachedWalk(g, root, members);
    TablesEffect(entries);
    if Tree(root, entries, members) == w.output {
      forall p | p in members && Present(entries, p)
        ensures Reachable(entries, Anchors(root, entries, members), p)
      {
        MembersAreShown(root, entries, members, p);
        EarlierStagesShowAnchored(root, entries, members, p);
      }
    }
    if forall p | p in members && Present(entries, p) :: Reachable(entries, Anchors(root, entries, members), p) {
      var rest := (members + {root}) - w.visited;
      DetachedWalkCloses(g, root, members);
      InOrdered(rest);
      forall p | p in rest
        ensures p !in g.byPid
      {
        if Present(entries, p) {
          AnchoredIsVisited(root, entries, members, p);
        }
      }
      AbsentAddNothing(g, Ordered(rest), 1, w);
    }
  }

  // ---------- snapshots without cycles ----------

  ghost predicate Acyclic(entries: seq<Entry>) {
    forall chain: seq<Pid> | IsChain(entries, chain) && |chain| > 1 :: chain[0] != Last(chain)
  }

  /** The parent of a chain's head extends the chain without repeating anything. */
  lemma ExtendChain(entries: seq<Entry>, chain: seq<Pid>, parent: Pid)
    requires Acyclic(entries) && IsChain(entries, chain)
    requires Present(entries, parent) && ChildEdge(entries, parent, chain[0])
    ensures IsChain(entries, [parent] + chain) && parent !in chain
  {
    var longer := [parent] + chain;
    assert IsChain(entries, longer);
    forall j | 0 <= j < |chain|
      ensures parent != chain[j]
    {
      var cycle := longer[..j + 2];
      assert IsChain(entries, cycle) && |cycle| > 1 && Last(cycle) == chain[j];
    }
  }

  ghost function Elements(chain: seq<Pid>): set<Pid> {
    set p | p in chain
  }

  lemma ElementsGrow(group: set<Pid>, chain: seq<Pid>, parent: Pid)
    requires Elements(chain) <= group && parent in group && parent !in chain
    ensures Elements([parent] + chain) <= group
    ensures |group - Elements([parent] + chain)| < |group - Elements(chain)|
  {
    assert Elements([parent] + chain) == Elements(chain) + {parent};
    assert group - Elements(chain) == (group - Elements([parent] + chain)) + {parent};
  }

  ghost predicate HasParentIn(entries: seq<Entry>, group: set<Pid>, pid: Pid) {
    exists parent | parent in group :: ChildEdge(entries, parent, pid)
  }

  lemma AnchorOrMemberParent(root: Pid, entries: seq<Entry>, members: set<Pid>, pid: Pid)
    requires pid in members + {root} && Present(entries, pid)
    ensures pid in Anchors(root, entries, members) || HasParentIn(entries, members + {root}, pid)
  {
    ByPidEffect(entries);
    assert ChildEdge(entries, ByPid(entries)[pid].parent, pid);
  }

  /** Climbing from a member through parents that are members ends at an anchor. */
  lemma {:induction false} ClimbToAnchor(entries: seq<Entry>, group: set<Pid>, anchors: set<Pid>, chain: seq<Pid>)
    requires Acyclic(entries) && IsChain(entries, chain) && Elements(chain) <= group
    requires forall p | p in group :: Present(entries, p) && (p in anchors || HasParentIn(entries, group, p))
    ensures Reachable(entries, anchors, Last(chain))
    decreases |group - Elements(chain)|
  {
    assert chain[0] in Elements(chain);
    if chain[0] !in anchors {
      assert HasParentIn(entries, group, chain[0]);
      var parent :| parent in group && ChildEdge(entries, parent, chain[0]);
      ExtendChain(entries, chain, parent);
      ElementsGrow(group, chain, parent);
      ClimbToAnchor(entries, group, anchors, [parent] + chain);
    }
  }

  /** So with acyclic parent links and the whole group present, the fallback has nothing to add. */
  lemma AcyclicNeedsNoFallback(root: Pid, entries: seq<Entry>, members: set<Pid>)
    requires Acyclic(entries)
    requires forall p | p in members + {root} :: Present(entries, p)
    ensures Tree(root, entries, members) == DetachedWalk(Tables(entries), root, members).output
  {
    var group, anchors := members + {root}, Anchors(root, entries, members);
    forall p | p in group
      ensures p in anchors || HasParentIn(entries, group, p)
    {
      AnchorOrMemberParent(root, entries, members, p);
    }
    forall p | p in members && Present(entries, p)
      ensures Reachable(entries, anchors, p)
    {
      assert IsChain(entries, [p]) && Elements([p]) == {p};
      ClimbToAnchor(entries, group, anchors, [p]);
    }
    FallbackAddsNothingExactly(root, entries, members);
  }

  // ---------- snapshots with cycles ----------

  /** A chain that ends among processes whose parents are all among them lies wholly among them. */
  lemma {:induction false} ChainStaysIn(entries: seq<Entry>, cycle: set<Pid>, chain: seq<Pid>, n: nat)
    requires IsChain(entries, chain) && n < |chain| && Last(chain) in cycle
    requires forall e | e in entries && e.pid in cycle :: e.parent in cycle
    ensures chain[n] in cycle
    decreases |chain| - n
  {
    if n < |chain| - 1 {
      ChainStaysIn(entries, cycle, chain, n + 1);
      assert ChildEdge(entries, chain[n], chain[n + 1]);
    }
  }

  /** Members whose parents are all among them, as on a cycle that nothing outside leads into, are shown
      by the fallback and by nothing else. */
  lemma ClosedCycleNeedsFallback(root: Pid, entries: seq<Entry>, members: set<Pid>, cycle: set<Pid>, pid: Pid)
    requires cycle <= members && root !in cycle && pid in cycle && Present(entries, pid)
    requires forall e | e in entries && e.pid in cycle :: e.parent in cycle
    ensures !Shown(DetachedWalk(Tables(entries), root, members).output, pid)
    ensures Shown(Tree(root, entries, members), pid)
  {
    MembersAreShown(root, entries, members, pid);
    EarlierStagesShowAnchored(root, entries, members, pid);
    ByPidEffect(entries);
    forall chain: seq<Pid> | IsChain(entries, chain) && Last(chain) == pid
      ensures chain[0] !in Anchors(root, entries, members)
    {
      ChainStaysIn(entries, cycle, chain, 0);
    }
  }
}
