/**
 The process tree shown for a managed tool: a depth-first walk over a snapshot of the process table,
 from the root, then from members of the group whose parent is not a member, and finally, as a
 defence against malformed snapshots, from every member not yet visited.

 The snapshot may be cyclic and may name a pid twice; the walk uses the last entry for a pid.
 */
module ProcessTree {
  import opened Basics

  type Pid = nat

  datatype Entry = Entry(pid: Pid, parent: Pid, name: string, memory: Option<nat>)

  datatype Node = Node(pid: Pid, parent: Pid, depth: nat, name: string, memory: Option<nat>)

  /** `byPid` and `children`, as the walk sees them. */
  datatype Snapshot = Snapshot(byPid: map<Pid, Entry>, children: map<Pid, seq<Pid>>) {
    function Kids(pid: Pid): seq<Pid> {
      if pid in children then children[pid] else []
    }
  }

  datatype Walk = Walk(visited: set<Pid>, output: seq<Node>)

  function NodeOf(e: Entry, depth: nat): Node {
    Node(e.pid, e.parent, depth, e.name, e.memory)
  }

  // ---------- sorting ----------

  ghost predicate Ascending(s: seq<Pid>) {
    forall i, j | 0 <= i < j < |s| :: s[i] <= s[j]
  }

  function Insert(x: Pid, s: seq<Pid>): seq<Pid> {
    if s == [] || x <= s[0] then [x] + s else [s[0]] + Insert(x, s[1..])
  }

  lemma InsertEffect(x: Pid, s: seq<Pid>)
    ensures multiset(Insert(x, s)) == multiset(s) + multiset{x}
    ensures Ascending(s) ==> Ascending(Insert(x, s))
  {
    InsertAdds(x, s);
    if Ascending(s) {
      InsertKeepsOrder(x, s);
    }
  }

  lemma {:induction false} InsertAdds(x: Pid, s: seq<Pid>)
    ensures multiset(Insert(x, s)) == multiset(s) + multiset{x}
  {
    if s != [] && s[0] < x {
      InsertAdds(x, s[1..]);
      assert s == [s[0]] + s[1..];
    }
  }

  lemma {:induction false} InsertKeepsOrder(x: Pid, s: seq<Pid>)
    requires Ascending(s)
    ensures Ascending(Insert(x, s))
  {
    if s != [] && s[0] < x {
      InsertKeepsOrder(x, s[1..]);
      InsertAdds(x, s[1..]);
      PrependKeepsOrder(s[0], Insert(x, s[1..]), s[1..], x);
    }
  }

  lemma PrependKeepsOrder(first: Pid, rest: seq<Pid>, s: seq<Pid>, x: Pid)
    requires Ascending(rest) && multiset(rest) == multiset(s) + multiset{x}
    requires first <= x && forall p | p in s :: first <= p
    ensures Ascending([first] + rest)
  {
    forall i | 0 <= i < |rest|
      ensures first <= rest[i]
    {
      assert rest[i] in multiset(rest);
      assert rest[i] == x || rest[i] in s;
    }
  }

  function Sorted(s: seq<Pid>): (r: seq<Pid>)
    ensures Ascending(r) && multiset(r) == multiset(s)
  {
    if s == [] then [] else
      assert s == [s[0]] + s[1..];
      InsertEffect(s[0], Sorted(s[1..]));
      Insert(s[0], Sorted(s[1..]))
  }

  lemma HeadsAgree(a: seq<Pid>, b: seq<Pid>)
    requires a != [] && b != [] && Ascending(a) && Ascending(b) && multiset(a) == multiset(b)
    ensures a[0] == b[0]
  {
    assert a[0] in multiset(b) && b[0] in multiset(a);
  }

  lemma TailMultiset(a: seq<Pid>)
    requires a != []
    ensures multiset(a[1..]) == multiset(a) - multiset{a[0]}
  {
    assert a == [a[0]] + a[1..];
  }

  /** An ascending sequence is determined by its elements. */
  lemma {:induction false} SortedIsUnique(a: seq<Pid>, b: seq<Pid>)
    requires Ascending(a) && Ascending(b) && multiset(a) == multiset(b)
    ensures a == b
  {
    assert |multiset(a)| == |multiset(b)|;
    if a != [] {
      HeadsAgree(a, b);
      TailMultiset(a);
      TailMultiset(b);
      SortedIsUnique(a[1..], b[1..]);
      assert a == [a[0]] + a[1..] && b == [b[0]] + b[1..];
    }
  }

  /** The elements of a set in ascending order. */
  ghost function Ordered(s: set<Pid>): (r: seq<Pid>)
    ensures Ascending(r) && multiset(r) == multiset(s)
  {
    if x :| x in s then InsertEffect(x, Ordered(s - {x})); Insert(x, Ordered(s - {x})) else []
  }

  // ---------- the tables ----------

  function ByPid(entries: seq<Entry>): map<Pid, Entry> {
    if entries == [] then map[] else ByPid(entries[..|entries| - 1])[Last(entries).pid := Last(entries)]
  }

  /** The pids pushed under `parent`, in snapshot order. */
  function ChildPids(entries: seq<Entry>, parent: Pid): seq<Pid> {
    if entries == [] then [] else
      var init := ChildPids(entries[..|entries| - 1], parent);
      if Last(entries).parent == parent then init + [Last(entries).pid] else init
  }

  function Parents(entries: seq<Entry>): set<Pid> {
    set e | e in entries :: e.parent
  }

  function Tables(entries: seq<Entry>): Snapshot {
    Snapshot(ByPid(entries), map p | p in Parents(entries) :: Sorted(ChildPids(entries, p)))
  }

  // ---------- the walk ----------

  function Unvisited(g: Snapshot, w: Walk): set<Pid> {
    g.byPid.Keys - w.visited
  }

  /** The inner `append`. */
  function Visit(g: Snapshot, pid: Pid, depth: nat, w: Walk): (r: Walk)
    ensures w.visited <= r.visited
    decreases |Unvisited(g, w)|, 1, 0
  {
    if pid in w.visited then w
    else if pid !in g.byPid then w.(visited := w.visited + {pid})
    else
      var w' := Walk(w.visited + {pid}, w.output + [NodeOf(g.byPid[pid], depth)]);
      Shrinks(g, w, w', pid);
      VisitAll(g, g.Kids(pid), depth + 1, w')
  }

  /** A loop that appends the pids of a list one after the other. */
  function VisitAll(g: Snapshot, pids: seq<Pid>, depth: nat, w: Walk): (r: Walk)
    ensures w.visited <= r.visited
    decreases |Unvisited(g, w)|, 2, |pids|
  {
    if pids == [] then w else
      var w' := Visit(g, pids[0], depth, w);
      NeverGrows(g, w, w');
      VisitAll(g, pids[1..], depth, w')
  }

  lemma Shrinks(g: Snapshot, w: Walk, w': Walk, pid: Pid)
    requires w'.visited == w.visited + {pid} && pid in g.byPid && pid !in w.visited
    ensures |Unvisited(g, w')| < |Unvisited(g, w)|
  {
    assert Unvisited(g, w) == Unvisited(g, w') + {pid};
  }

  lemma NeverGrows(g: Snapshot, w: Walk, w': Walk)
    requires w.visited <= w'.visited
    ensures |Unvisited(g, w')| <= |Unvisited(g, w)|
  {
    SubsetSize(Unvisited(g, w'), Unvisited(g, w));
  }

  lemma SubsetSize(a: set<Pid>, b: set<Pid>)
    requires a <= b
    ensures |a| <= |b|
  {
    assert b == a + (b - a);
  }

  // ---------- the whole tree ----------

  /** Unvisited members of the group whose parent is not a member. */
  function DetachedRoots(g: Snapshot, group: set<Pid>, visited: set<Pid>): set<Pid> {
    set p | p in group && p !in visited && p in g.byPid && g.byPid[p].parent !in group
  }

  ghost function RootWalk(g: Snapshot, root: Pid): Walk {
    Visit(g, root, 0, Walk({}, []))
  }

  ghost function DetachedWalk(g: Snapshot, root: Pid, members: set<Pid>): Walk {
    var w := RootWalk(g, root);
    VisitAll(g, Ordered(DetachedRoots(g, members + {root}, w.visited)), 1, w)
  }

  ghost function FullWalk(g: Snapshot, root: Pid, members: set<Pid>): Walk {
    var w := DetachedWalk(g, root, members);
    VisitAll(g, Ordered((members + {root}) - w.visited), 1, w)
  }

  ghost function Tree(root: Pid, entries: seq<Entry>, members: set<Pid>): seq<Node> {
    FullWalk(Tables(entries), root, members).output
  }

  // ---------- the program ----------

  class TreeBuilder {
    const g: Snapshot
    var visited: set<Pid>
    var output: seq<Node>

    constructor (g: Snapshot)
      ensures this.g == g && visited == {} && output == []
    {
      this.g := g;
      visited, output := {}, [];
    }

    ghost function Current(): Walk
      reads this
    {
      Walk(visited, output)
    }

    method Append(pid: Pid, depth: nat)
      modifies this
      ensures Current() == Visit(g, pid, depth, old(Current()))
      decreases |Unvisited(g, Current())|, 1
    {
      if pid in visited {
        return;
      }
      ghost var before := Current();
      visited := visited + {pid};
      if pid !in g.byPid {
        return;
      }
      output := output + [NodeOf(g.byPid[pid], depth)];
      Shrinks(g, before, Current(), pid);
      AppendAll(g.Kids(pid), depth + 1);
    }

    method AppendAll(pids: seq<Pid>, depth: nat)
      modifies this
      ensures Current() == VisitAll(g, pids, depth, old(Current()))
      decreases |Unvisited(g, Current())|, 2
    {
      for i := 0 to |pids|
        invariant old(visited) <= visited
        invariant VisitAll(g, pids[i..], depth, Current()) == VisitAll(g, pids, depth, old(Current()))
      {
        NeverGrows(g, old(Current()), Current());
        Append(pids[i], depth);
        assert pids[i..][1..] == pids[i + 1..];
      }
    }
  }

  ghost function Unsorted(entries: seq<Entry>): map<Pid, seq<Pid>> {
    map p | p in Parents(entries) :: ChildPids(entries, p)
  }

  lemma PushChild(entries: seq<Entry>, e: Entry)
    ensures ByPid(entries + [e]) == ByPid(entries)[e.pid := e]
    ensures Unsorted(entries + [e]) == Unsorted(entries)[e.parent := ChildPids(entries, e.parent) + [e.pid]]
  {
    var more := entries + [e];
    assert more[..|more| - 1] == entries && Last(more) == e;
    assert Parents(more) == Parents(entries) + {e.parent};
  }

  method FillTables(entries: seq<Entry>) returns (byPid: map<Pid, Entry>, children: map<Pid, seq<Pid>>)
    ensures byPid == ByPid(entries) && children == Unsorted(entries)
  {
    byPid, children := map[], map[];
    for i := 0 to |entries|
      invariant byPid == ByPid(entries[..i]) && children == Unsorted(entries[..i])
    {
      var e := entries[i];
      assert entries[..i + 1] == entries[..i] + [e];
      PushChild(entries[..i], e);
      if e.parent !in children {
        NoOrphans(entries[..i], e.parent);
      }
      children := children[e.parent := (if e.parent in children then children[e.parent] else []) + [e.pid]];
      byPid := byPid[e.pid := e];
    }
    assert entries[..|entries|] == entries;
  }

  method SortChildren(children: map<Pid, seq<Pid>>) returns (sorted: map<Pid, seq<Pid>>)
    ensures sorted.Keys == children.Keys
    ensures forall p | p in children :: sorted[p] == Sorted(children[p])
  {
    sorted := children;
    var unsorted := children.Keys;
    while unsorted != {}
      invariant unsorted <= children.Keys == sorted.Keys
      invariant forall p | p in children :: sorted[p] == if p in unsorted then children[p] else Sorted(children[p])
      decreases |unsorted|
    {
      var p :| p in unsorted;
      sorted := sorted[p := Sorted(children[p])];
      unsorted := unsorted - {p};
    }
  }

  method BuildTables(entries: seq<Entry>) returns (g: Snapshot)
    ensures g == Tables(entries)
  {
    var byPid, children := FillTables(entries);
    children := SortChildren(children);
    g := Snapshot(byPid, children);
  }

  lemma {:induction false} NoOrphans(entries: seq<Entry>, parent: Pid)
    requires parent !in Parents(entries)
    ensures ChildPids(entries, parent) == []
  {
    if entries != [] {
      var init := entries[..|entries| - 1];
      assert forall e | e in init :: e in entries;
      NoOrphans(init, parent);
      assert Last(entries) in entries;
    }
  }

  /** Collecting a hash set and sorting: the iteration order does not matter. */
  method CollectSorted(pids: set<Pid>) returns (r: seq<Pid>)
    ensures r == Ordered(pids)
  {
    var collected: seq<Pid> := [];
    var rest := pids;
    while rest != {}
      invariant rest <= pids && multiset(collected) == multiset(pids - rest)
      decreases |rest|
    {
      var p :| p in rest;
      assert pids - (rest - {p}) == (pids - rest) + {p};
      collected := collected + [p];
      rest := rest - {p};
    }
    assert pids - rest == pids;
    r := Sorted(collected);
    SortedIsUnique(r, Ordered(pids));
  }

  method BuildProcessTree(root: Pid, entries: seq<Entry>, members: set<Pid>) returns (output: seq<Node>)
    ensures output == Tree(root, entries, members)
  {
    var g := BuildTables(entries);
    var builder := new TreeBuilder(g);
    builder.Append(root, 0);
    var group := members + {root};
    var detached := CollectSorted(DetachedRoots(g, group, builder.visited));
    builder.AppendAll(detached, 1);
    var remaining := CollectSorted(group - builder.visited);
    builder.AppendAll(remaining, 1);
    output := builder.output;
  }
}
