/**
 * Gossip-target selection from a cluster topology (a map from each node to its
 * neighbours). `From` sorts every neighbour list. `Next` runs a deterministic
 * depth-first search from the smallest node, recording a cycle whenever a
 * neighbour is already on the current path; it prunes every cycle whose nodes all
 * occur in another cycle; then it returns, for the given node, its successor in each
 * remaining cycle, without duplicates. With no cycle at all it returns the node's
 * neighbour list.
 */
module Topology {
  import opened Common
  import opened Ids

  type Graph = map<NodeId, seq<NodeId>>

  /** A DFS stack entry: the node to expand and the path from the start node to it. */
  datatype Frame = Frame(node: NodeId, path: seq<NodeId>)

  // =====================================================================
  // Sorting the neighbour lists (`Topology::from`)
  // =====================================================================

  predicate Sorted(s: seq<NodeId>) {
    forall i, j | 0 <= i < j < |s| :: NodeLe(s[i], s[j])
  }

  /** Inserts `x` into a sorted list before the first element above it. */
  function Insert(x: NodeId, s: seq<NodeId>): (r: seq<NodeId>)
    requires Sorted(s)
    ensures Sorted(r) && multiset(r) == multiset(s) + multiset{x}
  {
    if s == [] then [x]
    else if NodeLe(x, s[0]) then [x] + s
    else
      var tail := Insert(x, s[1..]);
      assert s == [s[0]] + s[1..];
      assert forall i | 0 <= i < |tail| :: NodeLe(s[0], tail[i]) by {
        forall i | 0 <= i < |tail| ensures NodeLe(s[0], tail[i]) {
          assert tail[i] in multiset(tail);
        }
      }
      [s[0]] + tail
  }

  /** `slice::sort` on node ids: the ascending arrangement of the same elements. */
  function Sort(s: seq<NodeId>): (r: seq<NodeId>)
    ensures Sorted(r) && multiset(r) == multiset(s)
  {
    if s == [] then []
    else
      assert s == [s[0]] + s[1..];
      Insert(s[0], Sort(s[1..]))
  }

  lemma SortedHeadIsLeast(a: seq<NodeId>, x: NodeId)
    requires Sorted(a) && a != [] && x in multiset(a)
    ensures NodeLe(a[0], x)
  {
    var i :| 0 <= i < |a| && a[i] == x;
    if i > 0 { assert NodeLe(a[0], a[i]); }
  }

  lemma TailMultiset(a: seq<NodeId>)
    requires a != []
    ensures multiset(a[1..]) == multiset(a) - multiset{a[0]}
  {
    assert a == [a[0]] + a[1..];
  }

  /** A sorted arrangement of a multiset is unique, so `Sort` agrees with any stable or unstable sort. */
  lemma {:induction false} SortedUnique(a: seq<NodeId>, b: seq<NodeId>)
    requires Sorted(a) && Sorted(b) && multiset(a) == multiset(b)
    ensures a == b
    decreases |a|
  {
    assert |a| == |multiset(a)| == |multiset(b)| == |b|;
    if a != [] {
      SortedHeadIsLeast(a, b[0]);
      SortedHeadIsLeast(b, a[0]);
      assert a[0] == b[0];
      TailMultiset(a);
      TailMultiset(b);
      SortedUnique(a[1..], b[1..]);
      assert a == [a[0]] + a[1..] && b == [b[0]] + b[1..];
    }
  }

  /** Every list of `g` sorted. */
  function SortLists(g: Graph): (t: Graph)
    ensures t.Keys == g.Keys && forall k | k in t :: t[k] == Sort(g[k])
  {
    map k | k in g :: Sort(g[k])
  }

  /** An already sorted list is left as it is. */
  lemma SortSorted(s: seq<NodeId>)
    requires Sorted(s)
    ensures Sort(s) == s
  {
    SortedUnique(Sort(s), s);
  }

  /**
   * `Topology::from`: sorts every neighbour list in ascending node order, keeping the
   * key set and the elements of each list.
   */
  method From(g: Graph) returns (t: Graph)
    ensures t.Keys == g.Keys
    ensures forall k | k in t :: Sorted(t[k]) && multiset(t[k]) == multiset(g[k])
    ensures forall k | k in t :: t[k] == Sort(g[k])
  {
    t := g;
    var rest := g.Keys;
    while rest != {}
      invariant rest <= g.Keys && t.Keys == g.Keys
      invariant forall k | k in t && k !in rest :: t[k] == Sort(g[k])
      invariant forall k | k in rest :: t[k] == g[k]
      decreases rest
    {
      var k :| k in rest;
      t := t[k := Sort(t[k])];
      rest := rest - {k};
    }
  }

  /** On lists that are already sorted, `from` changes nothing. */
  lemma FromKeepsSorted(g: Graph, t: Graph)
    requires forall k | k in g :: Sorted(g[k])
    requires t.Keys == g.Keys && forall k | k in t :: t[k] == Sort(g[k])
    ensures t == g
  {
    forall k | k in t ensures t[k] == g[k] {
      SortSorted(g[k]);
    }
  }

  // =====================================================================
  // The graph
  // =====================================================================

  /** `get_neighbors`: the node's list, or empty when the node has no entry. */
  function Neighbors(t: Graph, n: NodeId): seq<NodeId> {
    if n in t then t[n] else []
  }

  /** Every node the topology mentions, as a key or as a neighbour. */
  ghost function Universe(t: Graph): set<NodeId> {
    t.Keys + set k, x | k in t && x in t[k] :: x
  }

  /** A bound above every neighbour-list length. */
  ghost function DegreeBound(t: Graph): (b: nat)
    ensures b >= 1
    ensures forall k | k in t :: |t[k]| < b
    decreases |t.Keys|
  {
    if t == map[] then 1
    else
      var k :| k in t;
      var rest := t - {k};
      assert rest.Keys == t.Keys - {k};
      assert forall k' | k' in rest :: rest[k'] == t[k'];
      var b := DegreeBound(rest);
      if |t[k]| < b then b else |t[k]| + 1
  }

  lemma NeighborsInUniverse(t: Graph, n: NodeId)
    ensures |Neighbors(t, n)| < DegreeBound(t)
    ensures forall i | 0 <= i < |Neighbors(t, n)| :: Neighbors(t, n)[i] in Universe(t)
  {
    if n in t {
      forall i | 0 <= i < |t[n]| ensures t[n][i] in Universe(t) {
        assert t[n][i] in t[n];
      }
    }
  }

  /** Consecutive elements are joined by an edge. */
  predicate IsWalk(t: Graph, p: seq<NodeId>) {
    forall i | 0 <= i < |p| - 1 :: p[i + 1] in Neighbors(t, p[i])
  }

  /**
   * A cycle of the graph: distinct nodes, each followed by a neighbour, the last
   * followed by the first (a single node with an edge to itself is a 1-cycle).
   */
  predicate IsCycle(t: Graph, c: seq<NodeId>) {
    |c| >= 1 && Distinct(c) && IsWalk(t, c) && c[0] in Neighbors(t, c[|c| - 1])
  }

  /** A DFS frame: a non-empty simple walk inside the topology that ends at the frame's node. */
  ghost predicate ValidFrame(t: Graph, f: Frame) {
    && |f.path| >= 1
    && f.node == f.path[|f.path| - 1]
    && Distinct(f.path)
    && IsWalk(t, f.path)
    && forall i | 0 <= i < |f.path| :: f.path[i] in Universe(t)
  }

  ghost predicate ValidStack(t: Graph, stack: seq<Frame>) {
    forall i | 0 <= i < |stack| :: ValidFrame(t, stack[i])
  }

  /** `position`: the first index holding `x`. */
  function IndexOf(s: seq<NodeId>, x: NodeId): (r: nat)
    requires x in s
    ensures r < |s| && s[r] == x
    ensures forall j | 0 <= j < r :: s[j] != x
  {
    if s[0] == x then 0 else 1 + IndexOf(s[1..], x)
  }

  // =====================================================================
  // The depth-first search, as a specification
  // =====================================================================

  /**
   * The inner loop of the search over the first neighbours `nbrs` of the frame with
   * path `path`: a neighbour already on the path closes the cycle from its first
   * position to the end of the path; an unvisited one is pushed with the path extended.
   * Returns the frames pushed and the cycles recorded, in order.
   */
  function Expand(path: seq<NodeId>, nbrs: seq<NodeId>, visited: set<NodeId>)
    : (r: (seq<Frame>, seq<seq<NodeId>>))
    ensures |r.0| <= |nbrs|
    ensures forall i | 0 <= i < |r.0| ::
              && r.0[i].path == path + [r.0[i].node]
              && r.0[i].node in nbrs && r.0[i].node !in path
    ensures forall i | 0 <= i < |r.1| ::
              && 1 <= |r.1[i]| <= |path|
              && r.1[i] == path[|path| - |r.1[i]|..]
              && r.1[i][0] in nbrs
    decreases |nbrs|
  {
    if nbrs == [] then ([], [])
    else
      var before := Expand(path, nbrs[..|nbrs| - 1], visited);
      var nb := nbrs[|nbrs| - 1];
      if nb in path then (before.0, before.1 + [path[IndexOf(path, nb)..]])
      else if nb !in visited then (before.0 + [Frame(nb, path + [nb])], before.1)
      else before
  }

  /**
   * The termination measure of the search: each frame weighs B^(N - |path|), with N the
   * number of nodes and B above every out-degree. Expanding a frame replaces it by at
   * most B - 1 frames of one B-th its weight.
   */
  ghost function FrameWeight(t: Graph, f: Frame): nat {
    var n := |Universe(t)|;
    if |f.path| <= n then Pow(DegreeBound(t), n - |f.path|) else 0
  }

  ghost function Weight(t: Graph, stack: seq<Frame>): nat {
    if stack == [] then 0 else Weight(t, stack[..|stack| - 1]) + FrameWeight(t, stack[|stack| - 1])
  }

  /**
   * The cycles the search records, starting from `stack` with the nodes in `visited`
   * already expanded and `cycles` already recorded. A frame is popped from the top,
   * its node marked visited, and its neighbours expanded in list order.
   */
  ghost function Dfs(t: Graph, stack: seq<Frame>, visited: set<NodeId>, cycles: seq<seq<NodeId>>)
    : seq<seq<NodeId>>
    requires ValidStack(t, stack)
    decreases Weight(t, stack)
  {
    if stack == [] then cycles
    else
      var f := stack[|stack| - 1];
      var rest := stack[..|stack| - 1];
      var step := Expand(f.path, Neighbors(t, f.node), visited + {f.node});
      ExpandKeepsStackValid(t, f, rest, visited + {f.node});
      ExpandDecreasesWeight(t, f, rest, visited + {f.node});
      Dfs(t, rest + step.0, visited + {f.node}, cycles + step.1)
  }

  // ---- lemmas for the search ----------------------------------------------

  lemma {:induction false} DistinctCard(p: seq<NodeId>)
    requires Distinct(p)
    ensures |set i | 0 <= i < |p| :: p[i]| == |p|
    decreases |p|
  {
    if p != [] {
      var init := p[..|p| - 1];
      DistinctCard(init);
      var s := set i | 0 <= i < |p| :: p[i];
      var s' := set i | 0 <= i < |init| :: init[i];
      assert s == s' + {p[|p| - 1]};
      assert p[|p| - 1] !in s';
    }
  }

  /** A simple path inside a finite node set is no longer than the set is large. */
  lemma PathLength(t: Graph, p: seq<NodeId>)
    requires Distinct(p) && forall i | 0 <= i < |p| :: p[i] in Universe(t)
    ensures |p| <= |Universe(t)|
  {
    DistinctCard(p);
    var s := set i | 0 <= i < |p| :: p[i];
    assert s <= Universe(t);
    SubsetCard(s, Universe(t));
  }

  lemma {:induction false} SubsetCard(a: set<NodeId>, b: set<NodeId>)
    requires a <= b
    ensures |a| <= |b|
    decreases |a|
  {
    if a != {} {
      var x :| x in a;
      SubsetCard(a - {x}, b - {x});
    }
  }

  lemma {:induction false} WeightAppend(t: Graph, a: seq<Frame>, b: seq<Frame>)
    ensures Weight(t, a + b) == Weight(t, a) + Weight(t, b)
    decreases |b|
  {
    if b != [] {
      var b' := b[..|b| - 1];
      var ab := a + b;
      assert ab[..|ab| - 1] == a + b';
      assert ab[|ab| - 1] == b[|b| - 1];
      WeightAppend(t, a, b');
      calc {
        Weight(t, ab);
        Weight(t, ab[..|ab| - 1]) + FrameWeight(t, ab[|ab| - 1]);
        Weight(t, a) + Weight(t, b') + FrameWeight(t, b[|b| - 1]);
        Weight(t, a) + Weight(t, b);
      }
    } else {
      assert a + b == a;
    }
  }

  /** Frames that all sit one level below `k` weigh B^(N-k-1) each. */
  lemma {:induction false} WeightUniform(t: Graph, fs: seq<Frame>, k: nat)
    requires k < |Universe(t)|
    requires forall i | 0 <= i < |fs| :: |fs[i].path| == k + 1
    ensures Weight(t, fs) == |fs| * Pow(DegreeBound(t), |Universe(t)| - k - 1)
    decreases |fs|
  {
    if fs != [] {
      var init := fs[..|fs| - 1];
      var q := Pow(DegreeBound(t), |Universe(t)| - k - 1);
      WeightUniform(t, init, k);
      assert FrameWeight(t, fs[|fs| - 1]) == q;
      assert Weight(t, fs) == Weight(t, init) + q;
      MulSucc(|init|, q);
    }
  }

  lemma MulSucc(m: nat, q: nat)
    ensures (m + 1) * q == m * q + q
  {
  }

  lemma ExpandKeepsStackValid(t: Graph, f: Frame, rest: seq<Frame>, visited: set<NodeId>)
    requires ValidStack(t, rest + [f])
    ensures ValidStack(t, rest + Expand(f.path, Neighbors(t, f.node), visited).0)
  {
    assert ValidFrame(t, (rest + [f])[|rest|]);
    var pushed := Expand(f.path, Neighbors(t, f.node), visited).0;
    NeighborsInUniverse(t, f.node);
    forall i | 0 <= i < |pushed| ensures ValidFrame(t, pushed[i]) {
      var p := pushed[i].path;
      assert p[|p| - 1] == pushed[i].node;
      assert p[|f.path| - 1] == f.node;
    }
    var s := rest + pushed;
    forall i | 0 <= i < |s| ensures ValidFrame(t, s[i]) {
      if i < |rest| { assert s[i] == (rest + [f])[i]; } else { assert s[i] == pushed[i - |rest|]; }
    }
  }

  lemma ProductBound(m: nat, b: nat, q: nat)
    requires m < b && q >= 1
    ensures m * q < b * q
  {
  }

  /** A frame can only be extended while its path is shorter than the number of nodes. */
  lemma ExtensionFits(t: Graph, f: Frame, nb: NodeId)
    requires ValidFrame(t, f)
    requires nb in Neighbors(t, f.node) && nb !in f.path
    ensures |f.path| < |Universe(t)|
  {
    NeighborsInUniverse(t, f.node);
    var p := f.path + [nb];
    assert Distinct(p);
    assert forall i | 0 <= i < |p| :: p[i] in Universe(t) by {
      forall i | 0 <= i < |p| ensures p[i] in Universe(t) {
        if i < |f.path| { assert p[i] == f.path[i]; }
      }
    }
    PathLength(t, p);
  }

  /** The frames pushed when expanding `f` weigh less together than `f` alone. */
  lemma PushedWeighLess(t: Graph, f: Frame, pushed: seq<Frame>)
    requires ValidFrame(t, f)
    requires |pushed| <= |Neighbors(t, f.node)|
    requires forall i | 0 <= i < |pushed| ::
               pushed[i].path == f.path + [pushed[i].node]
               && pushed[i].node in Neighbors(t, f.node) && pushed[i].node !in f.path
    ensures Weight(t, pushed) < FrameWeight(t, f)
  {
    var n := |Universe(t)|;
    var b := DegreeBound(t);
    var k := |f.path|;
    PathLength(t, f.path);
    assert FrameWeight(t, f) == Pow(b, n - k);
    if pushed != [] {
      ExtensionFits(t, f, pushed[0].node);
      WeightUniform(t, pushed, k);
      var q := Pow(b, n - k - 1);
      assert Pow(b, n - k) == b * q;
      NeighborsInUniverse(t, f.node);
      ProductBound(|pushed|, b, q);
    }
  }

  lemma ExpandDecreasesWeight(t: Graph, f: Frame, rest: seq<Frame>, visited: set<NodeId>)
    requires ValidStack(t, rest + [f])
    ensures Weight(t, rest + Expand(f.path, Neighbors(t, f.node), visited).0) < Weight(t, rest + [f])
  {
    assert ValidFrame(t, (rest + [f])[|rest|]);
    var pushed := Expand(f.path, Neighbors(t, f.node), visited).0;
    assert (rest + [f])[..|rest + [f]| - 1] == rest;
    WeightAppend(t, rest, pushed);
    PushedWeighLess(t, f, pushed);
  }

  /** Each cycle recorded while expanding a frame is a suffix of its path closed by an edge. */
  lemma ExpandFindsCycles(t: Graph, f: Frame, visited: set<NodeId>)
    requires ValidFrame(t, f)
    ensures forall i | 0 <= i < |Expand(f.path, Neighbors(t, f.node), visited).1| ::
              IsCycle(t, Expand(f.path, Neighbors(t, f.node), visited).1[i])
  {
    var found := Expand(f.path, Neighbors(t, f.node), visited).1;
    forall i | 0 <= i < |found| ensures IsCycle(t, found[i]) {
      SuffixIsCycle(t, f.path, |f.path| - |found[i]|);
    }
  }

  /** A suffix of a simple walk whose first node follows its last is a cycle. */
  lemma SuffixIsCycle(t: Graph, p: seq<NodeId>, s: nat)
    requires Distinct(p) && IsWalk(t, p)
    requires s < |p| && p[s] in Neighbors(t, p[|p| - 1])
    ensures IsCycle(t, p[s..])
  {
    var c := p[s..];
    assert forall j | 0 <= j < |c| :: c[j] == p[s + j];
    assert c[|c| - 1] == p[|p| - 1];
  }

  /** Every cycle the search records is a cycle of the graph. */
  lemma {:induction false} DfsFindsCycles(t: Graph, stack: seq<Frame>, visited: set<NodeId>,
                                          cycles: seq<seq<NodeId>>)
    requires ValidStack(t, stack)
    requires forall i | 0 <= i < |cycles| :: IsCycle(t, cycles[i])
    ensures forall i | 0 <= i < |Dfs(t, stack, visited, cycles)| :: IsCycle(t, Dfs(t, stack, visited, cycles)[i])
    decreases Weight(t, stack)
  {
    if stack != [] {
      var f := stack[|stack| - 1];
      var rest := stack[..|stack| - 1];
      assert stack == rest + [f];
      assert ValidFrame(t, stack[|stack| - 1]);
      var step := Expand(f.path, Neighbors(t, f.node), visited + {f.node});
      ExpandKeepsStackValid(t, f, rest, visited + {f.node});
      ExpandDecreasesWeight(t, f, rest, visited + {f.node});
      ExpandFindsCycles(t, f, visited + {f.node});
      var cycles' := cycles + step.1;
      assert forall i | 0 <= i < |cycles'| :: IsCycle(t, cycles'[i]) by {
        forall i | 0 <= i < |cycles'| ensures IsCycle(t, cycles'[i]) {
          if i >= |cycles| { assert cycles'[i] == step.1[i - |cycles|]; }
        }
      }
      DfsFindsCycles(t, rest + step.0, visited + {f.node}, cycles');
    }
  }

  // =====================================================================
  // Pruning cycles contained in other cycles
  // =====================================================================

  /** `contains_cycle(container, slice)`: every node of `slice` occurs in `container`. */
  predicate ContainsAll(container: seq<NodeId>, slice: seq<NodeId>) {
    forall i | 0 <= i < |slice| :: slice[i] in container
  }

  /** `contains_cycle`, with its early-return loop. */
  method ContainsCycle(container: seq<NodeId>, slice: seq<NodeId>) returns (b: bool)
    ensures b <==> ContainsAll(container, slice)
  {
    for i := 0 to |slice|
      invariant forall j | 0 <= j < i :: slice[j] in container
    {
      if slice[i] !in container {
        return false;
      }
    }
    return true;
  }

  /** Containment ignores order and direction: only the node sets matter. */
  lemma ContainsAllIgnoresOrder(c: seq<NodeId>, s: seq<NodeId>, c': seq<NodeId>, s': seq<NodeId>)
    requires forall x :: x in c <==> x in c'
    requires forall x :: x in s <==> x in s'
    ensures ContainsAll(c, s) <==> ContainsAll(c', s')
  {
    if ContainsAll(c, s) {
      forall i | 0 <= i < |s'| ensures s'[i] in c' { assert s'[i] in s; }
    }
    if ContainsAll(c', s') {
      forall i | 0 <= i < |s| ensures s[i] in c { assert s[i] in s'; }
    }
  }

  lemma ContainsAllTransitive(a: seq<NodeId>, b: seq<NodeId>, c: seq<NodeId>)
    requires ContainsAll(a, b) && ContainsAll(b, c)
    ensures ContainsAll(a, c)
  {
    forall i | 0 <= i < |c| ensures c[i] in a {
      var j :| 0 <= j < |b| && b[j] == c[i];
    }
  }

  /** The `any` test: some cycle other than `x` contains all of `x`'s nodes. */
  predicate ContainedElsewhere(cycles: seq<seq<NodeId>>, x: seq<NodeId>) {
    exists i | 0 <= i < |cycles| :: cycles[i] != x && ContainsAll(cycles[i], x)
  }

  /** `retain(|c| c != x)`: drops every copy of `x`, keeping the order of the rest. */
  function Without(cycles: seq<seq<NodeId>>, x: seq<NodeId>): (r: seq<seq<NodeId>>)
    ensures forall c :: c in r <==> c in cycles && c != x
  {
    if cycles == [] then []
    else (if cycles[0] == x then [] else [cycles[0]]) + Without(cycles[1..], x)
  }

  /**
   * The pruning loop from the `i`-th cycle of the original list on: each cycle, when
   * some other cycle still present contains all its nodes, is removed with all its copies.
   */
  function PruneFrom(original: seq<seq<NodeId>>, i: nat, current: seq<seq<NodeId>>): seq<seq<NodeId>>
    requires i <= |original|
    decreases |original| - i
  {
    if i == |original| then current
    else
      var x := original[i];
      PruneFrom(original, i + 1, if ContainedElsewhere(current, x) then Without(current, x) else current)
  }

  function Pruned(cycles: seq<seq<NodeId>>): seq<seq<NodeId>> {
    PruneFrom(cycles, 0, cycles)
  }

  /** The pruning loop of `next`, with the `any` search as an inner loop over `contains_cycle`. */
  method Prune(cycles: seq<seq<NodeId>>) returns (r: seq<seq<NodeId>>)
    ensures r == Pruned(cycles)
  {
    r := cycles;
    for i := 0 to |cycles|
      invariant PruneFrom(cycles, i, r) == Pruned(cycles)
    {
      var x := cycles[i];
      var found := false;
      var j := 0;
      while j < |r| && !found
        invariant 0 <= j <= |r|
        invariant found <==> exists k | 0 <= k < j :: r[k] != x && ContainsAll(r[k], x)
      {
        if r[j] != x {
          found := ContainsCycle(r[j], x);
        }
        j := j + 1;
      }
      if found {
        r := Without(r, x);
      }
    }
  }

  /** Pruning only removes: every remaining cycle was found by the search. */
  lemma {:induction false} PruneFromKeeps(original: seq<seq<NodeId>>, i: nat, current: seq<seq<NodeId>>)
    requires i <= |original|
    ensures forall c | c in PruneFrom(original, i, current) :: c in current
    decreases |original| - i
  {
    if i < |original| {
      var x := original[i];
      PruneFromKeeps(original, i + 1, if ContainedElsewhere(current, x) then Without(current, x) else current);
    }
  }

  /** After pruning no remaining cycle has all its nodes inside a different remaining cycle. */
  lemma {:induction false} PruneFromMaximal(original: seq<seq<NodeId>>, i: nat, current: seq<seq<NodeId>>)
    requires i <= |original|
    requires forall x | x in current :: x in original[i..] || !ContainedElsewhere(current, x)
    ensures forall a, b | a in PruneFrom(original, i, current) && b in PruneFrom(original, i, current) ::
              a != b ==> !ContainsAll(b, a)
    decreases |original| - i
  {
    var result := PruneFrom(original, i, current);
    if i == |original| {
      forall a, b | a in result && b in result && a != b ensures !ContainsAll(b, a) {
        var k :| 0 <= k < |result| && result[k] == b;
      }
    } else {
      var x := original[i];
      var next := if ContainedElsewhere(current, x) then Without(current, x) else current;
      assert original[i..] == [x] + original[i + 1..];
      forall y | y in next ensures y in original[i + 1..] || !ContainedElsewhere(next, y) {
        ContainedElsewhereShrinks(current, next, y);
      }
      PruneFromMaximal(original, i + 1, next);
    }
  }

  lemma ContainedElsewhereShrinks(current: seq<seq<NodeId>>, next: seq<seq<NodeId>>, y: seq<NodeId>)
    requires forall c | c in next :: c in current
    ensures ContainedElsewhere(next, y) ==> ContainedElsewhere(current, y)
  {
    if ContainedElsewhere(next, y) {
      var k :| 0 <= k < |next| && next[k] != y && ContainsAll(next[k], y);
      assert next[k] in current;
      var k' :| 0 <= k' < |current| && current[k'] == next[k];
    }
  }

  /** Pruning loses no node set: every cycle found is contained in some remaining cycle. */
  lemma {:induction false} PruneFromCovers(original: seq<seq<NodeId>>, i: nat, current: seq<seq<NodeId>>)
    requires i <= |original|
    requires forall x | x in original :: exists c | c in current :: ContainsAll(c, x)
    ensures forall x | x in original :: exists c | c in PruneFrom(original, i, current) :: ContainsAll(c, x)
    decreases |original| - i
  {
    if i < |original| {
      var y := original[i];
      if ContainedElsewhere(current, y) {
        var next := Without(current, y);
        var k :| 0 <= k < |current| && current[k] != y && ContainsAll(current[k], y);
        var w := current[k];
        forall x | x in original ensures exists c | c in next :: ContainsAll(c, x) {
          var c :| c in current && ContainsAll(c, x);
          if c == y {
            ContainsAllTransitive(w, y, x);
            assert w in next;
          } else {
            assert c in next;
          }
        }
        PruneFromCovers(original, i + 1, next);
      } else {
        PruneFromCovers(original, i + 1, current);
      }
    }
  }

  lemma ContainsAllSelf(x: seq<NodeId>)
    ensures ContainsAll(x, x)
  {
  }

  /** Pruning keeps only cycles it was given. */
  lemma PrunedKeeps(cycles: seq<seq<NodeId>>)
    ensures forall c | c in Pruned(cycles) :: c in cycles
  {
    PruneFromKeeps(cycles, 0, cycles);
  }

  /** No kept cycle has all its nodes inside a different kept cycle. */
  lemma PrunedMaximal(cycles: seq<seq<NodeId>>)
    ensures forall a, b | a in Pruned(cycles) && b in Pruned(cycles) :: a != b ==> !ContainsAll(b, a)
  {
    assert cycles[0..] == cycles;
    PruneFromMaximal(cycles, 0, cycles);
  }

  /** Every cycle given lies inside a kept one: pruning loses no node set. */
  lemma PrunedCovers(cycles: seq<seq<NodeId>>)
    ensures forall x | x in cycles :: exists c | c in Pruned(cycles) :: ContainsAll(c, x)
  {
    forall x | x in cycles ensures exists c | c in cycles :: ContainsAll(c, x) {
      ContainsAllSelf(x);
    }
    PruneFromCovers(cycles, 0, cycles);
  }

  /** Hence the pruned list is empty exactly when the search found no cycle. */
  lemma PrunedEmpty(cycles: seq<seq<NodeId>>)
    ensures Pruned(cycles) == [] <==> cycles == []
  {
    PrunedKeeps(cycles);
    if cycles != [] {
      PrunedCovers(cycles);
      assert cycles[0] in cycles;
    }
  }

  // =====================================================================
  // Choosing the successors
  // =====================================================================

  /** The `flat_map` closure: `n`'s successor in cycle `c`, nothing for a 1-cycle or a cycle without `n`. */
  function Successor(c: seq<NodeId>, n: NodeId): seq<NodeId> {
    if n !in c then []
    else
      var pos := IndexOf(c, n);
      if |c| == 1 then []
      else if |c| == 2 then (if pos == 0 then [c[1]] else [c[0]])
      else if pos == 0 then [c[1]]
      else if pos == |c| - 1 then [c[0]]
      else [c[pos + 1]]
  }

  /** The three cases of the closure are one rule: the next element, the last wrapping to the first. */
  lemma SuccessorWraps(c: seq<NodeId>, n: NodeId)
    ensures Successor(c, n) == if n in c && |c| >= 2 then [c[(IndexOf(c, n) + 1) % |c|]] else []
  {
    if n in c && |c| >= 2 {
      NextIndex(IndexOf(c, n), |c|);
    }
  }

  lemma NextIndex(pos: nat, len: nat)
    requires pos < len
    ensures (pos + 1) % len == if pos == len - 1 then 0 else pos + 1
  {
  }

  /** `flat_map` of the closure over the remaining cycles, in order. */
  function Successors(cycles: seq<seq<NodeId>>, n: NodeId): seq<NodeId> {
    if cycles == [] then []
    else Successors(cycles[..|cycles| - 1], n) + Successor(cycles[|cycles| - 1], n)
  }

  /** An id is among the successors exactly when it is `n`'s successor in one of the cycles. */
  lemma {:induction false} SuccessorsMembers(cycles: seq<seq<NodeId>>, n: NodeId, x: NodeId)
    ensures x in Successors(cycles, n) <==> exists c | c in cycles :: x in Successor(c, n)
    decreases |cycles|
  {
    if cycles != [] {
      var init := cycles[..|cycles| - 1];
      var last := cycles[|cycles| - 1];
      SuccessorsMembers(init, n, x);
      assert cycles == init + [last];
      if exists c | c in cycles :: x in Successor(c, n) {
        var c :| c in cycles && x in Successor(c, n);
        if c != last {
          assert c in init;
        }
      }
    }
  }

  /** The `fold` that appends each id not already collected (so the first occurrence is kept). */
  function Dedup(s: seq<NodeId>): seq<NodeId> {
    if s == [] then []
    else
      var r := Dedup(s[..|s| - 1]);
      if s[|s| - 1] in r then r else r + [s[|s| - 1]]
  }

  lemma {:induction false} IndexOfPrefix(s: seq<NodeId>, k: nat, x: NodeId)
    requires k <= |s| && x in s[..k]
    ensures IndexOf(s, x) == IndexOf(s[..k], x)
    decreases k
  {
    if s[0] != x {
      assert s[1..][..k - 1] == s[..k][1..];
      IndexOfPrefix(s[1..], k - 1, x);
    }
  }

  /**
   * `Dedup` keeps exactly the distinct elements of its input, each once, ordered by where
   * each first occurs.
   */
  lemma {:induction false} DedupFirstOccurrences(s: seq<NodeId>)
    ensures Distinct(Dedup(s))
    ensures forall x :: x in Dedup(s) <==> x in s
    ensures forall i, j | 0 <= i < j < |Dedup(s)| :: IndexOf(s, Dedup(s)[i]) < IndexOf(s, Dedup(s)[j])
    decreases |s|
  {
    if s != [] {
      var init := s[..|s| - 1];
      var last := s[|s| - 1];
      DedupFirstOccurrences(init);
      var r := Dedup(init);
      assert s == init + [last];
      forall x | x in init ensures IndexOf(s, x) == IndexOf(init, x) {
        IndexOfPrefix(s, |s| - 1, x);
      }
      if last !in r {
        var r' := r + [last];
        assert last !in init;
        assert IndexOf(s, last) == |s| - 1;
        forall i, j | 0 <= i < j < |r'| ensures IndexOf(s, r'[i]) < IndexOf(s, r'[j]) {
          assert r'[i] in r;
          if j == |r| {
            assert IndexOf(s, r'[i]) == IndexOf(init, r'[i]) < |init|;
          }
        }
      }
    }
  }

  /** Deduplicating a list without repetitions changes nothing. */
  lemma {:induction false} DedupDistinct(s: seq<NodeId>)
    requires Distinct(s)
    ensures Dedup(s) == s
    decreases |s|
  {
    if s != [] {
      var init := s[..|s| - 1];
      DedupDistinct(init);
      DedupFirstOccurrences(init);
      assert s[|s| - 1] !in init;
      assert s == init + [s[|s| - 1]];
    }
  }

  // =====================================================================
  // Topology::next
  // =====================================================================

  /** The smallest node id among the keys: the first of the sorted key list. */
  ghost function MinKey(t: Graph): (m: NodeId)
    requires t != map[]
    ensures m in t && forall k | k in t :: NodeLe(m, k)
    decreases |t.Keys|
  {
    var k :| k in t;
    var rest := t - {k};
    assert rest.Keys == t.Keys - {k};
    if t.Keys == {k} then
      k
    else
      var other :| other in t.Keys && other != k;
      assert other in rest;
      var m := MinKey(rest);
      assert forall k' | k' in t :: k' == k || k' in rest;
      if NodeLe(k, m) then k else m
  }

  lemma MinKeyUnique(t: Graph, m: NodeId)
    requires t != map[] && m in t && forall k | k in t :: NodeLe(m, k)
    ensures m == MinKey(t)
  {
    var m' := MinKey(t);
    assert NodeLe(m, m') && NodeLe(m', m);
    NodeLeTotalOrder(m, m', m);
  }

  lemma StartFrameValid(t: Graph, start: NodeId)
    requires start in t
    ensures ValidStack(t, [Frame(start, [start])])
  {
  }

  /** The cycles the search records when it starts from `start`. */
  ghost function SearchFrom(t: Graph, start: NodeId): seq<seq<NodeId>>
    requires start in t
  {
    StartFrameValid(t, start);
    Dfs(t, [Frame(start, [start])], {}, [])
  }

  /** The cycles the search records when it starts from the smallest key. */
  ghost function SearchCycles(t: Graph): seq<seq<NodeId>>
    requires t != map[]
  {
    SearchFrom(t, MinKey(t))
  }

  /** What `next(n)` returns: a deterministic function of the topology and the node. */
  ghost function NextSpec(t: Graph, n: NodeId): seq<NodeId> {
    if t == map[] then []
    else
      var cycles := Pruned(SearchCycles(t));
      if cycles == [] then Neighbors(t, n) else Dedup(Successors(cycles, n))
  }

  /** `all_nodes.sort()` then `first()`: the smallest key. */
  method SmallestKey(t: Graph) returns (m: NodeId)
    requires t != map[]
    ensures m in t && forall k | k in t :: NodeLe(m, k)
  {
    var rest := t.Keys;
    m :| m in rest;
    while rest != {}
      invariant rest <= t.Keys && m in t
      invariant forall k | k in t && k !in rest :: NodeLe(m, k)
      decreases rest
    {
      var k :| k in rest;
      if k.n < m.n {
        m := k;
      }
      rest := rest - {k};
    }
  }

  /** The `for neighbor in ...` loop over one popped frame, pushing onto `stack` and `cycles`. */
  method ScanNeighbors(t: Graph, f: Frame, visited: set<NodeId>, stack: seq<Frame>, cycles: seq<seq<NodeId>>)
    returns (stack': seq<Frame>, cycles': seq<seq<NodeId>>)
    ensures stack' == stack + Expand(f.path, Neighbors(t, f.node), visited).0
    ensures cycles' == cycles + Expand(f.path, Neighbors(t, f.node), visited).1
  {
    stack', cycles' := stack, cycles;
    var nbrs := Neighbors(t, f.node);
    for i := 0 to |nbrs|
      invariant stack' == stack + Expand(f.path, nbrs[..i], visited).0
      invariant cycles' == cycles + Expand(f.path, nbrs[..i], visited).1
    {
      assert nbrs[..i + 1][..i] == nbrs[..i];
      var nb := nbrs[i];
      if nb in f.path {
        cycles' := cycles' + [f.path[IndexOf(f.path, nb)..]];
      } else if nb !in visited {
        stack' := stack' + [Frame(nb, f.path + [nb])];
      }
    }
    assert nbrs[..|nbrs|] == nbrs;
  }

  /** One step of the search: pop the last frame and expand it. */
  lemma DfsUnfold(t: Graph, stack: seq<Frame>, visited: set<NodeId>, cycles: seq<seq<NodeId>>)
    requires ValidStack(t, stack) && stack != []
    ensures var f := stack[|stack| - 1];
            var rest := stack[..|stack| - 1];
            var step := Expand(f.path, Neighbors(t, f.node), visited + {f.node});
            && ValidStack(t, rest + step.0)
            && Weight(t, rest + step.0) < Weight(t, stack)
            && Dfs(t, stack, visited, cycles) == Dfs(t, rest + step.0, visited + {f.node}, cycles + step.1)
  {
    var f := stack[|stack| - 1];
    var rest := stack[..|stack| - 1];
    assert stack == rest + [f];
    ExpandKeepsStackValid(t, f, rest, visited + {f.node});
    ExpandDecreasesWeight(t, f, rest, visited + {f.node});
  }

  /** The search loop of `next`: pop a frame, mark it visited, scan its neighbours in order. */
  method FindCycles(t: Graph, start: NodeId) returns (cycles: seq<seq<NodeId>>)
    requires start in t
    ensures cycles == SearchFrom(t, start)
  {
    StartFrameValid(t, start);
    var stack := [Frame(start, [start])];
    var visited: set<NodeId> := {};
    cycles := [];
    while stack != []
      invariant ValidStack(t, stack)
      invariant Dfs(t, stack, visited, cycles) == SearchFrom(t, start)
      decreases Weight(t, stack)
    {
      var f := stack[|stack| - 1];
      var rest := stack[..|stack| - 1];
      DfsUnfold(t, stack, visited, cycles);
      visited := visited + {f.node};
      stack, cycles := ScanNeighbors(t, f, visited, rest, cycles);
    }
  }

  /** `Topology::next`. */
  method Next(t: Graph, n: NodeId) returns (r: seq<NodeId>)
    ensures r == NextSpec(t, n)
  {
    if t == map[] {
      return [];
    }
    var start := SmallestKey(t);
    MinKeyUnique(t, start);
    var found := FindCycles(t, start);
    var cycles := Prune(found);
    if cycles == [] {
      return Neighbors(t, n);
    }
    var flat := [];
    for i := 0 to |cycles|
      invariant flat == Successors(cycles[..i], n)
    {
      assert cycles[..i + 1][..i] == cycles[..i];
      flat := flat + Successor(cycles[i], n);
    }
    assert cycles[..|cycles|] == cycles;
    r := [];
    for j := 0 to |flat|
      invariant r == Dedup(flat[..j])
    {
      assert flat[..j + 1][..j] == flat[..j];
      if flat[j] !in r {
        r := r + [flat[j]];
      }
    }
    assert flat[..|flat|] == flat;
  }

  // =====================================================================
  // What `next` guarantees
  // =====================================================================

  /** The cycles the search records from the smallest key are cycles of the graph. */
  lemma SearchFindsCycles(t: Graph)
    requires t != map[]
    ensures forall c | c in SearchCycles(t) :: IsCycle(t, c)
  {
    StartFrameValid(t, MinKey(t));
    DfsFindsCycles(t, [Frame(MinKey(t), [MinKey(t)])], {}, []);
  }

  /** Without a cycle reachable from the smallest key, `next(n)` is `n`'s neighbour list. */
  lemma NextWithoutCycles(t: Graph, n: NodeId)
    requires t != map[] && SearchCycles(t) == []
    ensures NextSpec(t, n) == Neighbors(t, n)
    ensures n !in t ==> NextSpec(t, n) == []
  {
    PrunedEmpty(SearchCycles(t));
  }

  /** On a topology built by `from`, that neighbour list is in ascending order. */
  lemma NextWithoutCyclesSorted(g: Graph, t: Graph, n: NodeId)
    requires t.Keys == g.Keys && forall k | k in t :: t[k] == Sort(g[k])
    requires t != map[] && SearchCycles(t) == []
    ensures Sorted(NextSpec(t, n))
  {
    NextWithoutCycles(t, n);
  }

  /**
   * With cycles, `next(n)` holds exactly `n`'s successors (the last element wrapping to the
   * first) in the remaining cycles of length two or more that contain `n`.
   */
  lemma NextWithCycles(t: Graph, n: NodeId, x: NodeId)
    requires t != map[] && SearchCycles(t) != []
    ensures x in NextSpec(t, n) <==>
              exists c | c in Pruned(SearchCycles(t)) ::
                n in c && |c| >= 2 && x == c[(IndexOf(c, n) + 1) % |c|]
  {
    var cycles := Pruned(SearchCycles(t));
    PrunedEmpty(SearchCycles(t));
    assert NextSpec(t, n) == Dedup(Successors(cycles, n));
    DedupFirstOccurrences(Successors(cycles, n));
    SuccessorsWrap(cycles, n, x);
  }

  /** The successors of `n` over a list of cycles, with the closure's cases folded into one rule. */
  lemma SuccessorsWrap(cycles: seq<seq<NodeId>>, n: NodeId, x: NodeId)
    ensures x in Successors(cycles, n) <==>
              exists c | c in cycles :: n in c && |c| >= 2 && x == c[(IndexOf(c, n) + 1) % |c|]
  {
    SuccessorsMembers(cycles, n, x);
    if x in Successors(cycles, n) {
      var c :| c in cycles && x in Successor(c, n);
      SuccessorWraps(c, n);
      assert n in c && |c| >= 2 && x == c[(IndexOf(c, n) + 1) % |c|];
    } else {
      forall c | c in cycles && n in c && |c| >= 2 ensures x != c[(IndexOf(c, n) + 1) % |c|] {
        SuccessorWraps(c, n);
      }
    }
  }

  /** A successor taken from a cycle of the graph is a neighbour and never the node itself. */
  lemma SuccessorOfCycle(t: Graph, c: seq<NodeId>, n: NodeId, x: NodeId)
    requires IsCycle(t, c) && x in Successor(c, n)
    ensures x in Neighbors(t, n) && x != n
  {
    SuccessorWraps(c, n);
    var pos := IndexOf(c, n);
    NextIndex(pos, |c|);
    if pos < |c| - 1 {
      assert c[pos + 1] in Neighbors(t, c[pos]);
    }
  }

  /**
   * With cycles, `next(n)` names each node at most once, only neighbours of `n`, never `n`,
   * in the order the remaining cycles first yield them.
   */
  lemma NextWithCyclesTargets(t: Graph, n: NodeId)
    requires t != map[] && SearchCycles(t) != []
    ensures Distinct(NextSpec(t, n))
    ensures forall x | x in NextSpec(t, n) :: x in Neighbors(t, n) && x != n
  {
    var cycles := Pruned(SearchCycles(t));
    PrunedEmpty(SearchCycles(t));
    PrunedKeeps(SearchCycles(t));
    SearchFindsCycles(t);
    DedupFirstOccurrences(Successors(cycles, n));
    forall x | x in NextSpec(t, n) ensures x in Neighbors(t, n) && x != n {
      SuccessorsMembers(cycles, n, x);
      var c :| c in cycles && x in Successor(c, n);
      SuccessorOfCycle(t, c, n, x);
    }
  }

  /** Whatever branch is taken, `next(n)` only names neighbours of `n`. */
  lemma NextTargetsNeighbors(t: Graph, n: NodeId)
    ensures forall x | x in NextSpec(t, n) :: x in Neighbors(t, n)
  {
    if t != map[] {
      if SearchCycles(t) == [] {
        NextWithoutCycles(t, n);
      } else {
        NextWithCyclesTargets(t, n);
      }
    }
  }

  /** On a topology with no entry at all there is nobody to gossip to. */
  lemma NextOnEmpty(n: NodeId)
    ensures NextSpec(map[], n) == []
  {
  }
}
