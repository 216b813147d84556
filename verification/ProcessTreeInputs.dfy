/** On what the tree depends: not on the order in which the snapshot was read, exactly as long as it does
    not contradict itself about a process that is shown. */
module ProcessTreeInputs {
  import opened Basics
  import opened ProcessTree
  import opened ProcessTreeReach

  // ---------- unique pids ----------

  lemma SameByPid(a: seq<Entry>, b: seq<Entry>)
    requires UniquePids(b) && forall e | e in a :: e in b
    requires forall e | e in b :: e in a
    ensures ByPid(a) == ByPid(b)
  {
    ByPidEffect(a);
    ByPidEffect(b);
    forall p | p in ByPid(a)
      ensures p in ByPid(b) && ByPid(a)[p] == ByPid(b)[p]
    {
      assert ByPid(a)[p] in b;
      var i :| 0 <= i < |b| && b[i] == ByPid(a)[p];
      var j :| 0 <= j < |b| && b[j] == ByPid(b)[p];
    }
    forall p | p in ByPid(b)
      ensures p in ByPid(a)
    {
      assert ByPid(b)[p] in a;
    }
  }

  lemma SameChildren(a: seq<Entry>, b: seq<Entry>, p: Pid)
    requires UniquePids(a) && UniquePids(b)
    requires forall c :: ChildEdge(a, p, c) <==> ChildEdge(b, p, c)
    ensures Sorted(ChildPids(a, p)) == Sorted(ChildPids(b, p))
  {
    ChildPidsDistinct(a, p);
    ChildPidsDistinct(b, p);
    DistinctCount(ChildPids(a, p));
    DistinctCount(ChildPids(b, p));
    ChildPidsEffect(a, p);
    ChildPidsEffect(b, p);
    assert multiset(ChildPids(a, p)) == multiset(ChildPids(b, p));
    SortedIsUnique(Sorted(ChildPids(a, p)), Sorted(ChildPids(b, p)));
  }

  lemma SameTables(a: seq<Entry>, b: seq<Entry>)
    requires UniquePids(a) && UniquePids(b) && forall e :: e in a <==> e in b
    ensures Tables(a) == Tables(b)
  {
    SameByPid(a, b);
    assert Parents(a) == Parents(b);
    forall p | p in Parents(a)
      ensures Sorted(ChildPids(a, p)) == Sorted(ChildPids(b, p))
    {
      SameChildren(a, b, p);
    }
  }

  /** With unique pids the tree depends on the set of entries, not on the order they were read in. */
  lemma TreeIgnoresSnapshotOrder(root: Pid, a: seq<Entry>, b: seq<Entry>, members: set<Pid>)
    requires UniquePids(a) && UniquePids(b) && forall e :: e in a <==> e in b
    ensures Tree(root, a, members) == Tree(root, b, members)
  {
    SameTables(a, b);
  }

  // ---------- a permuted snapshot ----------

  function Without(entries: seq<Entry>, i: nat): seq<Entry>
    requires i < |entries|
  {
    entries[..i] + entries[i + 1..]
  }

  lemma WithoutEffect(entries: seq<Entry>, i: nat)
    requires i < |entries|
    ensures multiset(Without(entries, i)) == multiset(entries) - multiset{entries[i]}
  {
    assert entries == entries[..i] + [entries[i]] + entries[i + 1..];
  }

  lemma WithoutBeforeLast(entries: seq<Entry>, i: nat)
    requires i < |entries| - 1
    ensures Without(entries, i)[..|entries| - 2] == Without(entries[..|entries| - 1], i)
    ensures Last(Without(entries, i)) == Last(entries)
  {
  }

  function ChildOf(e: Entry, parent: Pid): multiset<Pid> {
    if e.parent == parent then multiset{e.pid} else multiset{}
  }

  lemma ChildPidsOfLast(entries: seq<Entry>, parent: Pid)
    requires entries != []
    ensures multiset(ChildPids(entries, parent)) ==
            multiset(ChildPids(entries[..|entries| - 1], parent)) + ChildOf(Last(entries), parent)
  {
  }

  lemma {:induction false} ChildPidsWithout(entries: seq<Entry>, i: nat, parent: Pid)
    requires i < |entries|
    ensures multiset(ChildPids(entries, parent)) ==
            multiset(ChildPids(Without(entries, i), parent)) + ChildOf(entries[i], parent)
  {
    var init, shorter := entries[..|entries| - 1], Without(entries, i);
    ChildPidsOfLast(entries, parent);
    if i == |entries| - 1 {
      assert shorter == init;
    } else {
      WithoutBeforeLast(entries, i);
      assert shorter[..|shorter| - 1] == Without(init, i) && init[i] == entries[i];
      ChildPidsWithout(init, i, parent);
      ChildPidsOfLast(shorter, parent);
    }
  }

  lemma {:induction false} PermutedChildren(a: seq<Entry>, b: seq<Entry>, parent: Pid)
    requires multiset(a) == multiset(b)
    ensures multiset(ChildPids(a, parent)) == multiset(ChildPids(b, parent))
  {
    assert |multiset(a)| == |multiset(b)|;
    if a != [] {
      var n := |a| - 1;
      assert a[n] in multiset(b);
      var i: nat :| i < |b| && b[i] == a[n];
      WithoutEffect(a, n);
      WithoutEffect(b, i);
      PermutedChildren(Without(a, n), Without(b, i), parent);
      ChildPidsWithout(a, n, parent);
      ChildPidsWithout(b, i, parent);
    }
  }

  lemma SameMembers(a: seq<Entry>, b: seq<Entry>)
    requires multiset(a) == multiset(b)
    ensures forall e :: e in a <==> e in b
  {
    assert forall e :: e in a <==> e in multiset(a);
  }

  lemma PermutedTables(a: seq<Entry>, b: seq<Entry>)
    requires multiset(a) == multiset(b)
    ensures Tables(a).children == Tables(b).children && Tables(a).byPid.Keys == Tables(b).byPid.Keys
  {
    SameMembers(a, b);
    TablesEffect(a);
    TablesEffect(b);
    assert forall p :: Present(a, p) <==> Present(b, p);
    assert Parents(a) == Parents(b);
    forall p | p in Parents(a)
      ensures Sorted(ChildPids(a, p)) == Sorted(ChildPids(b, p))
    {
      PermutedChildren(a, b, p);
      SortedIsUnique(Sorted(ChildPids(a, p)), Sorted(ChildPids(b, p)));
    }
  }

  lemma PermutedReachable(a: seq<Entry>, b: seq<Entry>, from: set<Pid>, pid: Pid)
    requires multiset(a) == multiset(b) && Reachable(a, from, pid)
    ensures Reachable(b, from, pid)
  {
    SameMembers(a, b);
    var chain: seq<Pid> :| IsChain(a, chain) && chain[0] in from && Last(chain) == pid;
    assert forall p :: Present(a, p) <==> Present(b, p);
    assert forall p, c :: ChildEdge(a, p, c) <==> ChildEdge(b, p, c);
    assert IsChain(b, chain);
  }

  // ---------- walks that agree ----------

  /** Two snapshots that differ only in the entries of processes outside `within`, a set no child edge
      leaves. */
  ghost predicate Agree(g: Snapshot, h: Snapshot, within: set<Pid>) {
    && g.byPid.Keys == h.byPid.Keys && g.children == h.children
    && (forall p | p in within && p in g.byPid :: g.byPid[p] == h.byPid[p])
    && Closes(g, {}, within)
  }

  lemma {:induction false} VisitAgrees(g: Snapshot, h: Snapshot, within: set<Pid>, pid: Pid, depth: nat, w: Walk)
    requires Agree(g, h, within) && pid in within
    ensures Visit(g, pid, depth, w) == Visit(h, pid, depth, w)
    decreases |Unvisited(g, w)|, 1, 0
  {
    if pid !in w.visited && pid in g.byPid {
      var w' := Walk(w.visited + {pid}, w.output + [NodeOf(g.byPid[pid], depth)]);
      Shrinks(g, w, w', pid);
      VisitAllAgrees(g, h, within, g.Kids(pid), depth + 1, w');
    }
  }

  lemma {:induction false} VisitAllAgrees(g: Snapshot, h: Snapshot, within: set<Pid>, pids: seq<Pid>,
                                          depth: nat, w: Walk)
    requires Agree(g, h, within) && AllIn(pids, within)
    ensures VisitAll(g, pids, depth, w) == VisitAll(h, pids, depth, w)
    decreases |Unvisited(g, w)|, 2, |pids|
  {
    if pids != [] {
      var w' := Visit(g, pids[0], depth, w);
      NeverGrows(g, w, w');
      VisitAgrees(g, h, within, pids[0], depth, w);
      assert AllIn(pids[1..], within);
      VisitAllAgrees(g, h, within, pids[1..], depth, w');
      VisitAllStep(g, pids, depth, w);
      VisitAllStep(h, pids, depth, w);
    }
  }

  lemma TreeAgrees(g: Snapshot, h: Snapshot, within: set<Pid>, root: Pid, members: set<Pid>)
    requires Agree(g, h, within) && members + {root} <= within
    ensures FullWalk(g, root, members) == FullWalk(h, root, members)
  {
    var w1 := RootWalk(g, root);
    var detached := DetachedRoots(g, members + {root}, w1.visited);
    VisitAgrees(g, h, within, root, 0, Walk({}, []));
    assert detached == DetachedRoots(h, members + {root}, w1.visited);
    InOrdered(detached);
    VisitAllAgrees(g, h, within, Ordered(detached), 1, w1);
    var w2 := DetachedWalk(g, root, members);
    var rest := (members + {root}) - w2.visited;
    InOrdered(rest);
    VisitAllAgrees(g, h, within, Ordered(rest), 1, w2);
  }

  // ---------- the order of the snapshot ----------

  /** The snapshot says one thing only about every process that is shown. */
  ghost predicate ConsistentWhereShown(entries: seq<Entry>, group: set<Pid>) {
    forall e, e' | e in entries && e' in entries && e.pid == e'.pid && Reachable(entries, group, e.pid) :: e == e'
  }

  ghost predicate OrderDoesNotMatter(root: Pid, entries: seq<Entry>, members: set<Pid>) {
    forall other: seq<Entry> | multiset(other) == multiset(entries) ::
      Tree(root, other, members) == Tree(root, entries, members)
  }

  lemma ConsistentIgnoresOrder(root: Pid, entries: seq<Entry>, members: set<Pid>, other: seq<Entry>)
    requires ConsistentWhereShown(entries, members + {root}) && multiset(other) == multiset(entries)
    ensures Tree(root, other, members) == Tree(root, entries, members)
  {
    var g, h := Tables(entries), Tables(other);
    var within := FullWalk(g, root, members).visited;
    PermutedTables(entries, other);
    SameMembers(entries, other);
    TablesEffect(entries);
    TablesEffect(other);
    FullWalkCloses(g, root, members);
    forall p | p in within && p in g.byPid
      ensures g.byPid[p] == h.byPid[p]
    {
      ShownIsReachable(entries, root, members, p);
    }
    TreeAgrees(g, h, within, root, members);
  }

  /** No later entry is for the same process. */
  ghost predicate IsLastFor(entries: seq<Entry>, i: nat) {
    i < |entries| && forall j | i < j < |entries| :: entries[j].pid != entries[i].pid
  }

  lemma {:induction false} LastEntryIsKept(entries: seq<Entry>, i: nat)
    requires IsLastFor(entries, i)
    ensures entries[i].pid in ByPid(entries) && ByPid(entries)[entries[i].pid] == entries[i]
  {
    if i < |entries| - 1 {
      LastEntryIsKept(entries[..|entries| - 1], i);
    }
  }

  /** The tree shows `e`, and nothing else for its process. */
  ghost predicate Shows(tree: seq<Node>, e: Entry) {
    && (exists n | n in tree :: n.pid == e.pid)
    && (forall n | n in tree && n.pid == e.pid :: Carries(n, e))
  }

  /** Of the entries for a process that is shown, the tree shows the one read last. */
  lemma LastEntryIsShown(root: Pid, entries: seq<Entry>, members: set<Pid>, i: nat)
    requires IsLastFor(entries, i) && Reachable(entries, members + {root}, entries[i].pid)
    ensures Shows(Tree(root, entries, members), entries[i])
  {
    TreeIsReachableSet(root, entries, members, entries[i].pid);
    LastEntryIsKept(entries, i);
    forall n | n in Tree(root, entries, members) && n.pid == entries[i].pid
      ensures Carries(n, entries[i])
    {
      NodesCarryKept(root, entries, members, n);
    }
  }

  lemma ReadLast(entries: seq<Entry>, e: Entry) returns (other: seq<Entry>)
    requires e in entries
    ensures multiset(other) == multiset(entries) && other != [] && Last(other) == e
  {
    var i: nat :| i < |entries| && entries[i] == e;
    WithoutEffect(entries, i);
    other := Without(entries, i) + [e];
  }

  lemma ShowsOne(tree: seq<Node>, e: Entry, e': Entry)
    requires Shows(tree, e) && Shows(tree, e') && e.pid == e'.pid
    ensures e == e'
  {
    var n :| n in tree && n.pid == e.pid;
    assert Carries(n, e) && Carries(n, e');
  }

  /** If the order of the snapshot does not matter, each entry for a process that is shown is shown: some
      order reads it last. */
  lemma EveryEntryShows(root: Pid, entries: seq<Entry>, members: set<Pid>, e: Entry)
    requires OrderDoesNotMatter(root, entries, members)
    requires e in entries && Reachable(entries, members + {root}, e.pid)
    ensures Shows(Tree(root, entries, members), e)
  {
    var other := ReadLast(entries, e);
    PermutedReachable(entries, other, members + {root}, e.pid);
    LastEntryIsShown(root, other, members, |other| - 1);
    assert Tree(root, other, members) == Tree(root, entries, members);
  }

  lemma ContradictionShows(root: Pid, entries: seq<Entry>, members: set<Pid>, e: Entry, e': Entry)
    requires OrderDoesNotMatter(root, entries, members)
    requires e in entries && e' in entries && e.pid == e'.pid && Reachable(entries, members + {root}, e.pid)
    ensures e == e'
  {
    EveryEntryShows(root, entries, members, e);
    EveryEntryShows(root, entries, members, e');
    ShowsOne(Tree(root, entries, members), e, e');
  }

  /** The tree is the same for every order of the snapshot exactly when the snapshot holds no two
      different entries for a process reachable from the group. */
  lemma OrderMattersExactly(root: Pid, entries: seq<Entry>, members: set<Pid>)
    ensures OrderDoesNotMatter(root, entries, members) <==> ConsistentWhereShown(entries, members + {root})
  {
    if ConsistentWhereShown(entries, members + {root}) {
      forall other: seq<Entry> | multiset(other) == multiset(entries)
        ensures Tree(root, other, members) == Tree(root, entries, members)
      {
        ConsistentIgnoresOrder(root, entries, members, other);
      }
    }
    if OrderDoesNotMatter(root, entries, members) {
      forall e, e' | e in entries && e' in entries && e.pid == e'.pid && Reachable(entries, members + {root}, e.pid)
        ensures e == e'
      {
        ContradictionShows(root, entries, members, e, e');
      }
    }
  }
}
