/**
 What the process tree shows: exactly the processes reachable from the group, each once, in an order
 that depends neither on the order of the snapshot nor on hash iteration.
 */
module ProcessTreeReach {
  import opened Basics
  import opened ProcessTree

  ghost predicate Present(entries: seq<Entry>, pid: Pid) {
    exists e | e in entries :: e.pid == pid
  }

  /** Some entry of the snapshot says that `child` was started by `parent`. */
  ghost predicate ChildEdge(entries: seq<Entry>, parent: Pid, child: Pid) {
    exists e | e in entries :: e.parent == parent && e.pid == child
  }

  /** A chain of child edges between processes of the snapshot. */
  ghost predicate IsChain(entries: seq<Entry>, chain: seq<Pid>) {
    && chain != []
    && (forall i | 0 <= i < |chain| :: Present(entries, chain[i]))
    && (forall i | 0 <= i < |chain| - 1 :: ChildEdge(entries, chain[i], chain[i + 1]))
  }

  ghost predicate Reachable(entries: seq<Entry>, from: set<Pid>, pid: Pid) {
    exists chain: seq<Pid> :: IsChain(entries, chain) && chain[0] in from && Last(chain) == pid
  }

  ghost predicate UniquePids(entries: seq<Entry>) {
    forall i, j | 0 <= i < j < |entries| :: entries[i].pid != entries[j].pid
  }

  // ---------- the tables say what the snapshot says ----------

  lemma {:induction false} ByPidEffect(entries: seq<Entry>)
    ensures forall p | p in ByPid(entries) :: ByPid(entries)[p] in entries && ByPid(entries)[p].pid == p
    ensures forall e | e in entries :: e.pid in ByPid(entries)
  {
    if entries != [] {
      ByPidEffect(entries[..|entries| - 1]);
      assert entries == entries[..|entries| - 1] + [Last(entries)];
    }
  }

  lemma {:induction false} ChildPidsEffect(entries: seq<Entry>, parent: Pid)
    ensures forall c :: c in ChildPids(entries, parent) <==> ChildEdge(entries, parent, c)
  {
    if entries != [] {
      var init := entries[..|entries| - 1];
      ChildPidsEffect(init, parent);
      assert entries == init + [Last(entries)];
      assert forall e :: e in entries <==> e in init || e == Last(entries);
      forall c
        ensures c in ChildPids(entries, parent) <==> ChildEdge(entries, parent, c)
      {
        assert ChildEdge(entries, parent, c) <==>
               ChildEdge(init, parent, c) || (Last(entries).parent == parent && Last(entries).pid == c);
      }
    }
  }

  lemma TablesEffect(entries: seq<Entry>)
    ensures forall p :: p in Tables(entries).byPid <==> Present(entries, p)
    ensures forall p | p in Tables(entries).byPid ::
              Tables(entries).byPid[p] in entries && Tables(entries).byPid[p].pid == p
    ensures forall p, c :: c in Tables(entries).Kids(p) <==> ChildEdge(entries, p, c)
  {
    ByPidEffect(entries);
    forall p, c
      ensures c in Tables(entries).Kids(p) <==> ChildEdge(entries, p, c)
    {
      ChildPidsEffect(entries, p);
      var kids := ChildPids(entries, p);
      assert c in Sorted(kids) <==> c in multiset(Sorted(kids));
    }
  }

  // ---------- closure ----------

  /** Every child of a newly visited process has been visited too. */
  ghost predicate Closes(g: Snapshot, before: set<Pid>, after: set<Pid>) {
    forall p, c | p in after && p !in before && p in g.byPid && c in g.Kids(p) :: c in after
  }

  lemma ClosesThrough(g: Snapshot, a: set<Pid>, b: set<Pid>, c: set<Pid>)
    requires Closes(g, a, b) && Closes(g, b, c) && b <= c
    ensures Closes(g, a, c)
  {
  }

  lemma {:induction false} VisitCloses(g: Snapshot, pid: Pid, depth: nat, w: Walk)
    ensures Closes(g, w.visited, Visit(g, pid, depth, w).visited)
    ensures pid in Visit(g, pid, depth, w).visited
    decreases |Unvisited(g, w)|, 1, 0
  {
    if pid !in w.visited && pid in g.byPid {
      var w' := Walk(w.visited + {pid}, w.output + [NodeOf(g.byPid[pid], depth)]);
      Shrinks(g, w, w', pid);
      VisitAllCloses(g, g.Kids(pid), depth + 1, w');
    }
  }

  lemma {:induction false} VisitAllCloses(g: Snapshot, pids: seq<Pid>, depth: nat, w: Walk)
    ensures Closes(g, w.visited, VisitAll(g, pids, depth, w).visited)
    ensures AllIn(pids, VisitAll(g, pids, depth, w).visited)
    decreases |Unvisited(g, w)|, 2, |pids|
  {
    if pids != [] {
      var w' := Visit(g, pids[0], depth, w);
      NeverGrows(g, w, w');
      VisitCloses(g, pids[0], depth, w);
      VisitAllCloses(g, pids[1..], depth, w');
      VisitAllStep(g, pids, depth, w);
      var visited := VisitAll(g, pids[1..], depth, w').visited;
      ClosesThrough(g, w.visited, w'.visited, visited);
      HeadAndTailIn(pids, visited);
    }
  }

  lemma VisitAllStep(g: Snapshot, pids: seq<Pid>, depth: nat, w: Walk)
    requires pids != []
    ensures VisitAll(g, pids, depth, w) == VisitAll(g, pids[1..], depth, Visit(g, pids[0], depth, w))
  {
  }

  ghost predicate AllIn(pids: seq<Pid>, s: set<Pid>) {
    forall p | p in pids :: p in s
  }

  lemma HeadAndTailIn(pids: seq<Pid>, s: set<Pid>)
    requires pids != [] && pids[0] in s && AllIn(pids[1..], s)
    ensures AllIn(pids, s)
  {
    assert pids == [pids[0]] + pids[1..];
  }

  // ---------- soundness: nothing but reachable processes ----------

  ghost predicate IsPath(g: Snapshot, path: seq<Pid>) {
    && path != []
    && (forall i | 0 <= i < |path| :: path[i] in g.byPid)
    && (forall i | 0 <= i < |path| - 1 :: path[i + 1] in g.Kids(path[i]))
  }

  ghost predicate Reaches(g: Snapshot, from: Pid, to: Pid) {
    exists path: seq<Pid> :: IsPath(g, path) && path[0] == from && Last(path) == to
  }

  /** Every newly visited process is reachable from one of `from`. */
  ghost predicate Explains(g: Snapshot, from: set<Pid>, before: set<Pid>, after: set<Pid>) {
    forall q | q in after && q !in before && q in g.byPid :: exists p | p in from :: Reaches(g, p, q)
  }

  lemma PrependEdge(g: Snapshot, p: Pid, c: Pid, q: Pid)
    requires p in g.byPid && c in g.Kids(p) && Reaches(g, c, q)
    ensures Reaches(g, p, q)
  {
    var path: seq<Pid> :| IsPath(g, path) && path[0] == c && Last(path) == q;
    assert IsPath(g, [p] + path) && Last([p] + path) == q;
  }

  lemma {:induction false} VisitExplains(g: Snapshot, pid: Pid, depth: nat, w: Walk)
    ensures Explains(g, {pid}, w.visited, Visit(g, pid, depth, w).visited)
    decreases |Unvisited(g, w)|, 1, 0
  {
    if pid !in w.visited && pid in g.byPid {
      var w' := Walk(w.visited + {pid}, w.output + [NodeOf(g.byPid[pid], depth)]);
      Shrinks(g, w, w', pid);
      VisitAllExplains(g, g.Kids(pid), depth + 1, w');
      var after := Visit(g, pid, depth, w).visited;
      forall q | q in after && q !in w.visited && q in g.byPid
        ensures Reaches(g, pid, q)
      {
        if q == pid {
          assert IsPath(g, [pid]) && Last([pid]) == pid;
        } else {
          var c :| c in g.Kids(pid) && Reaches(g, c, q);
          PrependEdge(g, pid, c, q);
        }
      }
    }
  }

  lemma {:induction false} VisitAllExplains(g: Snapshot, pids: seq<Pid>, depth: nat, w: Walk)
    ensures Explains(g, (set p | p in pids), w.visited, VisitAll(g, pids, depth, w).visited)
    decreases |Unvisited(g, w)|, 2, |pids|
  {
    if pids != [] {
      var w' := Visit(g, pids[0], depth, w);
      NeverGrows(g, w, w');
      VisitExplains(g, pids[0], depth, w);
      VisitAllExplains(g, pids[1..], depth, w');
      VisitAllStep(g, pids, depth, w);
      ExplainsThrough(g, pids, w.visited, w'.visited, VisitAll(g, pids, depth, w).visited);
    }
  }

  lemma ExplainsThrough(g: Snapshot, pids: seq<Pid>, a: set<Pid>, b: set<Pid>, c: set<Pid>)
    requires pids != [] && Explains(g, {pids[0]}, a, b) && Explains(g, (set p | p in pids[1..]), b, c)
    ensures Explains(g, (set p | p in pids), a, c)
  {
  }

  // ---------- the output lists what was visited ----------

  ghost predicate OutputSound(g: Snapshot, w: Walk) {
    && (forall p :: p in w.visited && p in g.byPid <==> exists n | n in w.output :: n.pid == p)
    && (forall i, j | 0 <= i < j < |w.output| :: w.output[i].pid != w.output[j].pid)
    && (forall n | n in w.output :: n.pid in g.byPid && n == NodeOf(g.byPid[n.pid], n.depth))
  }

  ghost predicate KeysMatch(g: Snapshot) {
    forall p | p in g.byPid :: g.byPid[p].pid == p
  }

  lemma ListOne(g: Snapshot, w: Walk, pid: Pid, depth: nat)
    requires KeysMatch(g) && OutputSound(g, w) && pid in g.byPid && pid !in w.visited
    ensures OutputSound(g, Walk(w.visited + {pid}, w.output + [NodeOf(g.byPid[pid], depth)]))
  {
    var node := NodeOf(g.byPid[pid], depth);
    var out' := w.output + [node];
    assert forall n :: n in out' <==> n in w.output || n == node;
    forall p
      ensures p in w.visited + {pid} && p in g.byPid <==> exists n | n in out' :: n.pid == p
    {
      assert p == pid ==> node in out' && node.pid == p;
    }
    forall i | 0 <= i < |w.output|
      ensures w.output[i].pid != pid
    {
      assert w.output[i] in w.output;
    }
  }

  lemma {:induction false} VisitLists(g: Snapshot, pid: Pid, depth: nat, w: Walk)
    requires KeysMatch(g) && OutputSound(g, w)
    ensures OutputSound(g, Visit(g, pid, depth, w))
    decreases |Unvisited(g, w)|, 1, 0
  {
    if pid !in w.visited && pid in g.byPid {
      var w' := Walk(w.visited + {pid}, w.output + [NodeOf(g.byPid[pid], depth)]);
      Shrinks(g, w, w', pid);
      ListOne(g, w, pid, depth);
      VisitAllLists(g, g.Kids(pid), depth + 1, w');
    }
  }

  lemma {:induction false} VisitAllLists(g: Snapshot, pids: seq<Pid>, depth: nat, w: Walk)
    requires KeysMatch(g) && OutputSound(g, w)
    ensures OutputSound(g, VisitAll(g, pids, depth, w))
    decreases |Unvisited(g, w)|, 2, |pids|
  {
    if pids != [] {
      var w' := Visit(g, pids[0], depth, w);
      NeverGrows(g, w, w');
      VisitLists(g, pids[0], depth, w);
      VisitAllLists(g, pids[1..], depth, w');
    }
  }

  // ---------- the whole walk ----------

  lemma InOrdered(s: set<Pid>)
    ensures forall p :: p in Ordered(s) <==> p in s
  {
    forall p
      ensures p in Ordered(s) <==> p in s
    {
      assert p in Ordered(s) <==> p in multiset(Ordered(s));
    }
  }

  lemma FullWalkLists(g: Snapshot, root: Pid, members: set<Pid>)
    requires KeysMatch(g)
    ensures OutputSound(g, FullWalk(g, root, members))
  {
    var w1, w2 := RootWalk(g, root), DetachedWalk(g, root, members);
    VisitLists(g, root, 0, Walk({}, []));
    VisitAllLists(g, Ordered(DetachedRoots(g, members + {root}, w1.visited)), 1, w1);
    VisitAllLists(g, Ordered((members + {root}) - w2.visited), 1, w2);
  }

  lemma DetachedWalkCloses(g: Snapshot, root: Pid, members: set<Pid>)
    ensures Closes(g, {}, DetachedWalk(g, root, members).visited)
    ensures RootWalk(g, root).visited <= DetachedWalk(g, root, members).visited
    ensures DetachedRoots(g, members + {root}, RootWalk(g, root).visited) <= DetachedWalk(g, root, members).visited
    ensures root in RootWalk(g, root).visited
  {
    var w1 := RootWalk(g, root);
    var detached := DetachedRoots(g, members + {root}, w1.visited);
    VisitCloses(g, root, 0, Walk({}, []));
    VisitAllCloses(g, Ordered(detached), 1, w1);
    ClosesThrough(g, {}, w1.visited, DetachedWalk(g, root, members).visited);
    InOrdered(detached);
  }

  lemma FullWalkCloses(g: Snapshot, root: Pid, members: set<Pid>)
    ensures Closes(g, {}, FullWalk(g, root, members).visited)
    ensures members + {root} <= FullWalk(g, root, members).visited
  {
    var w2 := DetachedWalk(g, root, members);
    var rest := (members + {root}) - w2.visited;
    DetachedWalkCloses(g, root, members);
    VisitAllCloses(g, Ordered(rest), 1, w2);
    ClosesThrough(g, {}, w2.visited, FullWalk(g, root, members).visited);
    InOrdered(rest);
  }

  lemma FullWalkExplains(g: Snapshot, root: Pid, members: set<Pid>)
    ensures Explains(g, members + {root}, {}, FullWalk(g, root, members).visited)
  {
    var w1, w2 := RootWalk(g, root), DetachedWalk(g, root, members);
    var detached, rest := DetachedRoots(g, members + {root}, w1.visited), (members + {root}) - w2.visited;
    VisitExplains(g, root, 0, Walk({}, []));
    VisitAllExplains(g, Ordered(detached), 1, w1);
    VisitAllExplains(g, Ordered(rest), 1, w2);
    InOrdered(detached);
    InOrdered(rest);
  }

  /** A path that starts in a closed set never leaves it. */
  lemma {:induction false} PathStays(g: Snapshot, visited: set<Pid>, path: seq<Pid>, n: nat)
    requires IsPath(g, path) && n < |path| && path[0] in visited && Closes(g, {}, visited)
    ensures path[n] in visited
  {
    if n > 0 {
      PathStays(g, visited, path, n - 1);
      assert path[n - 1 + 1] in g.Kids(path[n - 1]);
    }
  }

  lemma PathsAreChains(entries: seq<Entry>, path: seq<Pid>)
    ensures IsPath(Tables(entries), path) <==> IsChain(entries, path)
  {
    TablesEffect(entries);
  }

  lemma ShownIsReachable(entries: seq<Entry>, root: Pid, members: set<Pid>, pid: Pid)
    requires pid in FullWalk(Tables(entries), root, members).visited && pid in Tables(entries).byPid
    ensures Reachable(entries, members + {root}, pid)
  {
    var g := Tables(entries);
    FullWalkExplains(g, root, members);
    var p :| p in members + {root} && Reaches(g, p, pid);
    var path: seq<Pid> :| IsPath(g, path) && path[0] == p && Last(path) == pid;
    PathsAreChains(entries, path);
  }

  lemma ReachableIsShown(entries: seq<Entry>, root: Pid, members: set<Pid>, pid: Pid)
    requires Reachable(entries, members + {root}, pid)
    ensures pid in FullWalk(Tables(entries), root, members).visited && pid in Tables(entries).byPid
  {
    var g := Tables(entries);
    var chain: seq<Pid> :| IsChain(entries, chain) && chain[0] in members + {root} && Last(chain) == pid;
    PathsAreChains(entries, chain);
    FullWalkCloses(g, root, members);
    PathStays(g, FullWalk(g, root, members).visited, chain, |chain| - 1);
  }

  ghost predicate Shown(tree: seq<Node>, pid: Pid) {
    exists n | n in tree :: n.pid == pid
  }

  /** The node carries what the snapshot entry says. */
  predicate Carries(n: Node, e: Entry) {
    n.pid == e.pid && n.parent == e.parent && n.name == e.name && n.memory == e.memory
  }

  lemma SoundCarries(g: Snapshot, w: Walk, n: Node)
    requires OutputSound(g, w) && n in w.output
    ensures n.pid in g.byPid && Carries(n, g.byPid[n.pid])
  {
  }

  /** Every node of the tree carries the entry that the tables keep for its process. */
  lemma NodesCarryKept(root: Pid, entries: seq<Entry>, members: set<Pid>, n: Node)
    requires n in Tree(root, entries, members)
    ensures n.pid in Tables(entries).byPid && Tables(entries).byPid[n.pid] in entries
    ensures Carries(n, Tables(entries).byPid[n.pid])
  {
    var g := Tables(entries);
    TablesEffect(entries);
    FullWalkLists(g, root, members);
    SoundCarries(g, FullWalk(g, root, members), n);
  }

  /** The tree lists each process at most once, with the data of its snapshot entry, and lists exactly
      the processes reachable by child edges from the root and the members present in the snapshot. */
  lemma TreeIsReachableSet(root: Pid, entries: seq<Entry>, members: set<Pid>, pid: Pid)
    ensures Shown(Tree(root, entries, members), pid) <==> Reachable(entries, members + {root}, pid)
    ensures forall i, j | 0 <= i < j < |Tree(root, entries, members)| ::
              Tree(root, entries, members)[i].pid != Tree(root, entries, members)[j].pid
    ensures forall n | n in Tree(root, entries, members) :: exists e | e in entries :: Carries(n, e)
  {
    var g := Tables(entries);
    assert KeysMatch(g) by {
      TablesEffect(entries);
    }
    FullWalkLists(g, root, members);
    forall n | n in Tree(root, entries, members)
      ensures exists e | e in entries :: Carries(n, e)
    {
      NodesCarryKept(root, entries, members, n);
    }
    if Shown(Tree(root, entries, members), pid) {
      ShownIsReachable(entries, root, members, pid);
    }
    if Reachable(entries, members + {root}, pid) {
      ReachableIsShown(entries, root, members, pid);
    }
  }

  /** Every member of the group that the snapshot knows is shown, however malformed the snapshot. */
  lemma MembersAreShown(root: Pid, entries: seq<Entry>, members: set<Pid>, pid: Pid)
    requires pid in members + {root} && Present(entries, pid)
    ensures Shown(Tree(root, entries, members), pid)
  {
    assert IsChain(entries, [pid]) && Last([pid]) == pid;
    TreeIsReachableSet(root, entries, members, pid);
  }

  // ---------- unique pids ----------

  lemma {:induction false} ChildPidsDistinct(entries: seq<Entry>, parent: Pid)
    requires UniquePids(entries)
    ensures forall i, j | 0 <= i < j < |ChildPids(entries, parent)| ::
              ChildPids(entries, parent)[i] != ChildPids(entries, parent)[j]
  {
    if entries != [] {
      var init := entries[..|entries| - 1];
      ChildPidsDistinct(init, parent);
      ChildPidsEffect(init, parent);
      forall i | 0 <= i < |ChildPids(init, parent)|
        ensures ChildPids(init, parent)[i] != Last(entries).pid
      {
        assert ChildEdge(init, parent, ChildPids(init, parent)[i]);
      }
    }
  }

  lemma {:induction false} DistinctCount(s: seq<Pid>)
    requires forall i, j | 0 <= i < j < |s| :: s[i] != s[j]
    ensures forall x :: multiset(s)[x] == if x in s then 1 else 0
  {
    if s != [] {
      DistinctCount(s[1..]);
      assert s == [s[0]] + s[1..];
    }
  }
}
