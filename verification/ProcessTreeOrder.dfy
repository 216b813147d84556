/**
 The shape of the process tree: with unique pids the output is a preorder.  Depths say who is whose
 child, and the children one call emits come in ascending order.
 */
module ProcessTreeOrder {
  import opened Basics
  import opened ProcessTree
  import opened ProcessTreeReach

  /** Entry `j` is the nearest entry before `i` that is one level up, and it is the parent of `i`. */
  ghost predicate ParentAt(b: seq<Node>, j: int, i: int) {
    && 0 <= j < i < |b|
    && b[j].depth + 1 == b[i].depth
    && b[j].pid == b[i].parent
    && forall k | j < k < i :: b[i].depth <= b[k].depth
  }

  /** Two entries of one level with nothing of a higher level between them. */
  ghost predicate Siblings(b: seq<Node>, i: int, j: int) {
    && 0 <= i < j < |b|
    && b[i].depth == b[j].depth
    && forall k | i < k < j :: b[i].depth <= b[k].depth
  }

  ghost predicate HasParent(b: seq<Node>, i: int) {
    exists j :: ParentAt(b, j, i)
  }

  ghost predicate NotAbove(b: seq<Node>, depth: nat) {
    forall i | 0 <= i < |b| :: depth <= b[i].depth
  }

  ghost predicate Parented(b: seq<Node>, depth: nat) {
    forall i | 0 <= i < |b| && depth < b[i].depth :: HasParent(b, i)
  }

  ghost predicate SiblingsAscend(b: seq<Node>, depth: nat) {
    forall i, j | Siblings(b, i, j) && depth < b[i].depth :: b[i].pid < b[j].pid
  }

  /** A block of entries emitted at level `depth`: what lies deeper has its parent in the block. */
  ghost predicate Nested(b: seq<Node>, depth: nat) {
    NotAbove(b, depth) && Parented(b, depth) && SiblingsAscend(b, depth)
  }

  ghost predicate TopAscending(b: seq<Node>, depth: nat) {
    forall i, j | 0 <= i < j < |b| && b[i].depth == depth == b[j].depth :: b[i].pid < b[j].pid
  }

  ghost predicate TopsAmong(b: seq<Node>, depth: nat, pids: seq<Pid>) {
    forall i | 0 <= i < |b| && b[i].depth == depth :: b[i].pid in pids
  }

  ghost predicate StrictlyAscending(s: seq<Pid>) {
    forall i, j | 0 <= i < j < |s| :: s[i] < s[j]
  }

  /** With unique pids a child's entry names the parent it is listed under, once. */
  ghost predicate Genealogical(g: Snapshot) {
    && KeysMatch(g)
    && (forall p, c | c in g.Kids(p) && c in g.byPid :: g.byPid[c].parent == p)
    && (forall p :: StrictlyAscending(g.Kids(p)))
  }

  lemma UniqueTablesAreGenealogical(entries: seq<Entry>)
    requires UniquePids(entries)
    ensures Genealogical(Tables(entries))
  {
    var g := Tables(entries);
    TablesEffect(entries);
    forall p, c | c in g.Kids(p) && c in g.byPid
      ensures g.byPid[c].parent == p
    {
      assert ChildEdge(entries, p, c);
      var e :| e in entries && e.parent == p && e.pid == c;
      var i: nat :| i < |entries| && entries[i] == e;
      var j: nat :| j < |entries| && entries[j] == g.byPid[c];
      assert i == j;
    }
    forall p
      ensures StrictlyAscending(g.Kids(p))
    {
      ChildPidsDistinct(entries, p);
      DistinctCount(ChildPids(entries, p));
      SortedStrictly(g.Kids(p));
    }
  }

  lemma {:induction false} TwiceCounted(s: seq<Pid>, i: nat, j: nat)
    requires i < j < |s| && s[i] == s[j]
    ensures multiset(s)[s[i]] >= 2
  {
    assert s == s[..j] + s[j..];
    assert s[i] in s[..j] && s[j] in s[j..];
  }

  lemma SortedStrictly(s: seq<Pid>)
    requires Ascending(s) && forall x :: multiset(s)[x] <= 1
    ensures StrictlyAscending(s)
  {
    forall i, j | 0 <= i < j < |s|
      ensures s[i] < s[j]
    {
      if s[i] == s[j] {
        TwiceCounted(s, i, j);
      }
    }
  }

  lemma OrderedStrictly(s: set<Pid>)
    ensures StrictlyAscending(Ordered(s))
  {
    assert forall x :: multiset(s)[x] <= 1;
    SortedStrictly(Ordered(s));
  }

  // ---------- putting blocks together ----------

  lemma EncloseParented(node: Node, b: seq<Node>)
    requires NotAbove(b, node.depth + 1) && Parented(b, node.depth + 1)
    requires forall i | 0 <= i < |b| && b[i].depth == node.depth + 1 :: b[i].parent == node.pid
    ensures Parented([node] + b, node.depth)
  {
    var c := [node] + b;
    forall i | 0 <= i < |c| && node.depth < c[i].depth
      ensures HasParent(c, i)
    {
      assert c[i] == b[i - 1];
      if c[i].depth == node.depth + 1 {
        assert ParentAt(c, 0, i);
      } else {
        assert HasParent(b, i - 1);
        var j :| ParentAt(b, j, i - 1);
        assert ParentAt(c, j + 1, i);
      }
    }
  }

  lemma EncloseSiblings(node: Node, b: seq<Node>)
    requires SiblingsAscend(b, node.depth + 1) && TopAscending(b, node.depth + 1)
    ensures SiblingsAscend([node] + b, node.depth)
  {
    var c := [node] + b;
    forall i, j | Siblings(c, i, j) && node.depth < c[i].depth
      ensures c[i].pid < c[j].pid
    {
      assert c[i] == b[i - 1] && c[j] == b[j - 1];
      if node.depth + 1 < c[i].depth {
        SiblingsShift([node], b, i, j);
      }
    }
  }

  lemma SiblingsShift(a: seq<Node>, b: seq<Node>, i: int, j: int)
    requires Siblings(a + b, i, j) && |a| <= i
    ensures Siblings(b, i - |a|, j - |a|)
  {
    var c := a + b;
    forall k | i - |a| < k < j - |a|
      ensures b[i - |a|].depth <= b[k].depth
    {
      assert b[k] == c[k + |a|] && b[i - |a|] == c[i];
    }
  }

  lemma SiblingsPrefix(a: seq<Node>, b: seq<Node>, i: int, j: int)
    requires Siblings(a + b, i, j) && j < |a|
    ensures Siblings(a, i, j)
  {
    var c := a + b;
    forall k | i < k < j
      ensures a[i].depth <= a[k].depth
    {
      assert a[k] == c[k] && a[i] == c[i];
    }
  }

  lemma FirstIsTop(b: seq<Node>, depth: nat)
    requires NotAbove(b, depth) && Parented(b, depth) && b != []
    ensures b[0].depth == depth
  {
    assert !HasParent(b, 0);
  }

  lemma JuxtaposeParented(a: seq<Node>, b: seq<Node>, depth: nat)
    requires Parented(a, depth) && Parented(b, depth)
    ensures Parented(a + b, depth)
  {
    var c := a + b;
    forall i | 0 <= i < |c| && depth < c[i].depth
      ensures HasParent(c, i)
    {
      if i < |a| {
        assert HasParent(a, i);
        var j :| ParentAt(a, j, i);
        assert ParentAt(c, j, i);
      } else {
        assert c[i] == b[i - |a|] && HasParent(b, i - |a|);
        var j :| ParentAt(b, j, i - |a|);
        assert forall k | |a| <= k < |c| :: c[k] == b[k - |a|];
        assert ParentAt(c, j + |a|, i);
      }
    }
  }

  lemma SiblingsOfOneBlock(a: seq<Node>, b: seq<Node>, depth: nat, i: int, j: int)
    requires NotAbove(b, depth) && Parented(b, depth)
    requires Siblings(a + b, i, j) && depth < (a + b)[i].depth
    ensures j < |a| || |a| <= i
  {
    if b != [] {
      FirstIsTop(b, depth);
      assert (a + b)[|a|] == b[0];
    }
  }

  /** Two blocks of one level never mix their deeper siblings: the second starts at that level. */
  lemma JuxtaposeSiblings(a: seq<Node>, b: seq<Node>, depth: nat)
    requires SiblingsAscend(a, depth) && SiblingsAscend(b, depth)
    requires NotAbove(b, depth) && Parented(b, depth)
    ensures SiblingsAscend(a + b, depth)
  {
    var c := a + b;
    forall i, j | Siblings(c, i, j) && depth < c[i].depth
      ensures c[i].pid < c[j].pid
    {
      SiblingsOfOneBlock(a, b, depth, i, j);
      if j < |a| {
        SiblingsPrefix(a, b, i, j);
      } else {
        SiblingsShift(a, b, i, j);
      }
    }
  }

  // ---------- the walk emits nested blocks ----------

  ghost predicate FromSnapshot(g: Snapshot, b: seq<Node>) {
    forall i | 0 <= i < |b| :: b[i].pid in g.byPid && b[i] == NodeOf(g.byPid[b[i].pid], b[i].depth)
  }

  /** A block emitted for the pids of a list. */
  ghost predicate BlockFor(g: Snapshot, b: seq<Node>, depth: nat, pids: seq<Pid>) {
    Nested(b, depth) && FromSnapshot(g, b) && TopsAmong(b, depth, pids) && TopAscending(b, depth)
  }

  lemma EncloseBlock(g: Snapshot, pid: Pid, depth: nat, below: seq<Node>)
    requires Genealogical(g) && pid in g.byPid && BlockFor(g, below, depth + 1, g.Kids(pid))
    ensures BlockFor(g, [NodeOf(g.byPid[pid], depth)] + below, depth, [pid])
  {
    var node := NodeOf(g.byPid[pid], depth);
    EncloseParented(node, below);
    EncloseSiblings(node, below);
  }

  lemma JuxtaposeBlocks(g: Snapshot, first: seq<Node>, rest: seq<Node>, depth: nat, pids: seq<Pid>)
    requires pids != [] && StrictlyAscending(pids)
    requires BlockFor(g, first, depth, [pids[0]]) && BlockFor(g, rest, depth, pids[1..])
    ensures BlockFor(g, first + rest, depth, pids)
  {
    JuxtaposeParented(first, rest, depth);
    JuxtaposeSiblings(first, rest, depth);
    JuxtaposeTops(first, rest, depth, pids);
  }

  lemma JuxtaposeTops(first: seq<Node>, rest: seq<Node>, depth: nat, pids: seq<Pid>)
    requires pids != [] && StrictlyAscending(pids)
    requires TopsAmong(first, depth, [pids[0]]) && TopAscending(first, depth)
    requires TopsAmong(rest, depth, pids[1..]) && TopAscending(rest, depth)
    ensures TopsAmong(first + rest, depth, pids) && TopAscending(first + rest, depth)
  {
    assert forall x | x in pids[1..] :: pids[0] < x && x in pids;
  }

  lemma ConcatAssociates(a: seq<Node>, b: seq<Node>, c: seq<Node>)
    ensures (a + b) + c == a + (b + c)
  {
  }

  lemma {:induction false} VisitNests(g: Snapshot, pid: Pid, depth: nat, w: Walk) returns (b: seq<Node>)
    requires Genealogical(g)
    ensures Visit(g, pid, depth, w).output == w.output + b && BlockFor(g, b, depth, [pid])
    decreases |Unvisited(g, w)|, 1, 0
  {
    b := [];
    if pid !in w.visited && pid in g.byPid {
      var node := NodeOf(g.byPid[pid], depth);
      var w' := Walk(w.visited + {pid}, w.output + [node]);
      Shrinks(g, w, w', pid);
      var below := VisitAllNests(g, g.Kids(pid), depth + 1, w');
      b := [node] + below;
      ConcatAssociates(w.output, [node], below);
      EncloseBlock(g, pid, depth, below);
    }
  }

  lemma {:induction false} VisitAllNests(g: Snapshot, pids: seq<Pid>, depth: nat, w: Walk) returns (b: seq<Node>)
    requires Genealogical(g) && StrictlyAscending(pids)
    ensures VisitAll(g, pids, depth, w).output == w.output + b && BlockFor(g, b, depth, pids)
    decreases |Unvisited(g, w)|, 2, |pids|
  {
    b := [];
    if pids != [] {
      var w' := Visit(g, pids[0], depth, w);
      NeverGrows(g, w, w');
      var first := VisitNests(g, pids[0], depth, w);
      var rest := VisitAllNests(g, pids[1..], depth, w');
      b := first + rest;
      ConcatAssociates(w.output, first, rest);
      JuxtaposeBlocks(g, first, rest, depth, pids);
    }
  }

  // ---------- the whole output ----------

  lemma RootNests(g: Snapshot, root: Pid) returns (own: seq<Node>)
    requires Genealogical(g)
    ensures RootWalk(g, root).output == own && BlockFor(g, own, 0, [root])
  {
    own := VisitNests(g, root, 0, Walk({}, []));
    assert [] + own == own;
  }

  lemma DetachedNests(g: Snapshot, root: Pid, members: set<Pid>) returns (detached: seq<Node>)
    requires Genealogical(g)
    ensures DetachedWalk(g, root, members).output == RootWalk(g, root).output + detached
    ensures Nested(detached, 1) && TopAscending(detached, 1)
  {
    var w := RootWalk(g, root);
    var roots := DetachedRoots(g, members + {root}, w.visited);
    OrderedStrictly(roots);
    detached := VisitAllNests(g, Ordered(roots), 1, w);
  }

  lemma FallbackNests(g: Snapshot, root: Pid, members: set<Pid>) returns (fallback: seq<Node>)
    requires Genealogical(g)
    ensures FullWalk(g, root, members).output == DetachedWalk(g, root, members).output + fallback
    ensures Nested(fallback, 1) && TopAscending(fallback, 1)
  {
    var w := DetachedWalk(g, root, members);
    OrderedStrictly((members + {root}) - w.visited);
    fallback := VisitAllNests(g, Ordered((members + {root}) - w.visited), 1, w);
  }

  /** With unique pids the output is three blocks: the root's own tree at level 0, the detached roots
      and the fallback at level 1; every block is a preorder and its top entries ascend. */
  lemma TreeIsPreorder(root: Pid, entries: seq<Entry>, members: set<Pid>)
    returns (own: seq<Node>, detached: seq<Node>, fallback: seq<Node>)
    requires UniquePids(entries)
    ensures Tree(root, entries, members) == own + detached + fallback
    ensures Nested(own, 0) && Nested(detached, 1) && Nested(fallback, 1)
    ensures TopsAmong(own, 0, [root]) && TopAscending(detached, 1) && TopAscending(fallback, 1)
  {
    var g := Tables(entries);
    UniqueTablesAreGenealogical(entries);
    own := RootNests(g, root);
    detached := DetachedNests(g, root, members);
    fallback := FallbackNests(g, root, members);
  }

  /** So an entry two or more levels down follows its real parent, the nearest entry one level up. */
  lemma ParentPrecedesChild(root: Pid, entries: seq<Entry>, members: set<Pid>, i: nat)
    requires UniquePids(entries)
    requires i < |Tree(root, entries, members)| && 2 <= Tree(root, entries, members)[i].depth
    ensures HasParent(Tree(root, entries, members), i)
  {
    var own, detached, fallback := TreeIsPreorder(root, entries, members);
    assert Parented(own, 1) && Parented(detached, 1) && Parented(fallback, 1);
    JuxtaposeParented(own, detached, 1);
    JuxtaposeParented(own + detached, fallback, 1);
  }

  /** Siblings two or more levels down ascend over the whole output, not only within a block. */
  lemma DeepSiblingsAscend(root: Pid, entries: seq<Entry>, members: set<Pid>, i: nat, j: nat)
    requires UniquePids(entries)
    requires Siblings(Tree(root, entries, members), i, j) && 2 <= Tree(root, entries, members)[i].depth
    ensures Tree(root, entries, members)[i].pid < Tree(root, entries, members)[j].pid
  {
    var own, detached, fallback := TreeIsPreorder(root, entries, members);
    assert SiblingsAscend(own, 1);
    JuxtaposeSiblings(own, detached, 1);
    JuxtaposeSiblings(own + detached, fallback, 1);
  }

  /** Depth rises by at most one from an entry to the next. */
  lemma DepthRisesByOne(root: Pid, entries: seq<Entry>, members: set<Pid>, i: nat)
    requires UniquePids(entries) && i + 1 < |Tree(root, entries, members)|
    ensures Tree(root, entries, members)[i + 1].depth <= Tree(root, entries, members)[i].depth + 1
  {
    var tree := Tree(root, entries, members);
    if 2 <= tree[i + 1].depth {
      ParentPrecedesChild(root, entries, members, i + 1);
      var j :| ParentAt(tree, j, i + 1);
    }
  }
}
