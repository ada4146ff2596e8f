/**
 * The graphs of the unit tests of `src/topology.rs`, with what `next` returns on each,
 * derived step by step from the specification of the search, the pruning and the selection.
 */
module TopologyExamples {
  import opened Ids
  import opened Topology

  /** `contains_cycle` as a recursive test, so that it can be evaluated on literal lists. */
  predicate AllIn(container: seq<NodeId>, slice: seq<NodeId>) {
    slice == [] || (slice[0] in container && AllIn(container, slice[1..]))
  }

  lemma {:induction false} AllInIsContainsAll(container: seq<NodeId>, slice: seq<NodeId>)
    ensures AllIn(container, slice) <==> ContainsAll(container, slice)
    decreases |slice|
  {
    if slice != [] {
      AllInIsContainsAll(container, slice[1..]);
      assert forall i | 1 <= i < |slice| :: slice[i] == slice[1..][i - 1];
    }
  }

  /** `nb` first occurs in `path` at `at`, so the scan records the cycle `closed` from there on. */
  predicate ClosesAt(path: seq<NodeId>, nb: NodeId, at: nat, closed: seq<NodeId>) {
    at < |path| && path[at] == nb && nb !in path[..at] && closed == path[at..]
  }

  /** One neighbour of the scan over a popped frame. */
  lemma ScanOne(path: seq<NodeId>, visited: set<NodeId>, done: seq<NodeId>, nb: NodeId, done': seq<NodeId>,
                extended: seq<NodeId>, at: nat, closed: seq<NodeId>,
                pushed: seq<Frame>, found: seq<seq<NodeId>>, pushed': seq<Frame>, found': seq<seq<NodeId>>)
    requires Expand(path, done, visited).0 == pushed && Expand(path, done, visited).1 == found
    requires done' == done + [nb]
    requires nb in path ==> ClosesAt(path, nb, at, closed) && found' == found + [closed] && pushed' == pushed
    requires nb !in path && nb !in visited ==>
               extended == path + [nb] && pushed' == pushed + [Frame(nb, extended)] && found' == found
    requires nb !in path && nb in visited ==> pushed' == pushed && found' == found
    ensures Expand(path, done', visited).0 == pushed' && Expand(path, done', visited).1 == found'
  {
    assert done'[..|done|] == done;
  }

  /** One pass of the search loop, with the popped frame, its neighbours and what they add spelled out. */
  lemma SearchStep(t: Graph, stack: seq<Frame>, visited: set<NodeId>, cycles: seq<seq<NodeId>>,
                   f: Frame, rest: seq<Frame>, nbrs: seq<NodeId>, visited': set<NodeId>,
                   pushed: seq<Frame>, found: seq<seq<NodeId>>, stack': seq<Frame>, cycles': seq<seq<NodeId>>)
    requires ValidStack(t, stack)
    requires stack == rest + [f] && Neighbors(t, f.node) == nbrs && visited' == visited + {f.node}
    requires Expand(f.path, nbrs, visited').0 == pushed && Expand(f.path, nbrs, visited').1 == found
    requires stack' == rest + pushed && cycles' == cycles + found
    ensures ValidStack(t, stack')
    ensures Dfs(t, stack, visited, cycles) == Dfs(t, stack', visited', cycles')
  {
    DfsUnfold(t, stack, visited, cycles);
  }

  /** None of the first `k` cycles of `current` is a different cycle holding all of `x`. */
  predicate NoneContains(current: seq<seq<NodeId>>, x: seq<NodeId>, k: nat)
    requires k <= |current|
  {
    forall j | 0 <= j < k :: current[j] == x || !ContainsAll(current[j], x)
  }

  lemma NoneContainsNext(current: seq<seq<NodeId>>, x: seq<NodeId>, k: nat, missing: NodeId)
    requires k < |current| && (k == 0 || NoneContains(current, x, k))
    requires missing in x && missing !in current[k]
    ensures NoneContains(current, x, k + 1)
  {
  }

  lemma NoneContainsSelf(current: seq<seq<NodeId>>, x: seq<NodeId>, k: nat)
    requires k < |current| && (k == 0 || NoneContains(current, x, k))
    requires current[k] == x
    ensures NoneContains(current, x, k + 1)
  {
  }

  lemma NotContained(current: seq<seq<NodeId>>, x: seq<NodeId>)
    requires NoneContains(current, x, |current|)
    ensures !ContainedElsewhere(current, x)
  {
  }

  lemma ContainedAt(current: seq<seq<NodeId>>, x: seq<NodeId>, k: nat, c: seq<NodeId>)
    requires k < |current| && current[k] == c && c != x && AllIn(c, x)
    ensures ContainedElsewhere(current, x)
  {
    AllInIsContainsAll(c, x);
  }

  lemma {:induction false} WithoutNone(s: seq<seq<NodeId>>, x: seq<NodeId>)
    requires forall j | 0 <= j < |s| :: s[j] != x
    ensures Without(s, x) == s
    decreases |s|
  {
    if s != [] {
      WithoutNone(s[1..], x);
    }
  }

  /** `retain` on a list holding the tested cycle exactly once, at `i`. */
  lemma {:induction false} WithoutOne(current: seq<seq<NodeId>>, x: seq<NodeId>, i: nat)
    requires i < |current| && current[i] == x
    requires forall j | 0 <= j < |current| && j != i :: current[j] != x
    ensures Without(current, x) == current[..i] + current[i + 1..]
    decreases |current|
  {
    if i == 0 {
      WithoutNone(current[1..], x);
    } else {
      WithoutOne(current[1..], x, i - 1);
      assert current[..i] == [current[0]] + current[1..][..i - 1];
      assert current[i + 1..] == current[1..][i..];
    }
  }

  /** One pass of the pruning loop, with the outcome of the `any` test established. */
  lemma PruneStep(original: seq<seq<NodeId>>, i: nat, x: seq<NodeId>, current: seq<seq<NodeId>>, next: seq<seq<NodeId>>)
    requires i < |original| && original[i] == x
    requires ContainedElsewhere(current, x) ==> Without(current, x) == next
    requires !ContainedElsewhere(current, x) ==> next == current
    ensures PruneFrom(original, i, current) == PruneFrom(original, i + 1, next)
  {
  }

  /** `n`'s successor in a cycle where it first occurs at `pos`. */
  lemma SuccessorAt(c: seq<NodeId>, n: NodeId, pos: nat, next: NodeId)
    requires 2 <= |c| && pos < |c| && c[pos] == n && n !in c[..pos]
    requires c[if pos + 1 < |c| then pos + 1 else 0] == next
    ensures Successor(c, n) == [next]
  {
    SuccessorWraps(c, n);
    var i := IndexOf(c, n);
    if i > pos {
      assert false;
    }
    NextIndex(pos, |c|);
  }

  lemma SuccessorAbsent(c: seq<NodeId>, n: NodeId)
    requires n !in c
    ensures Successor(c, n) == []
  {
  }

  lemma SuccessorsOne(a: seq<NodeId>, n: NodeId)
    ensures Successors([a], n) == Successor(a, n)
  {
    assert [a][..0] == [];
  }

  lemma SuccessorsTwo(a: seq<NodeId>, b: seq<NodeId>, n: NodeId)
    ensures Successors([a, b], n) == Successor(a, n) + Successor(b, n)
  {
    assert [a, b][..1] == [a];
    SuccessorsOne(a, n);
  }

  lemma DedupOne(x: NodeId)
    ensures Dedup([x]) == [x]
  {
    assert [x][..0] == [];
  }

  lemma DedupTwo(x: NodeId, y: NodeId)
    ensures Dedup([x, y]) == if x == y then [x] else [x, y]
  {
    assert [x, y][..1] == [x];
    DedupOne(x);
  }

  /** With cycles left after pruning, `next` is the selection over them. */
  lemma NextFromPruned(t: Graph, pruned: seq<seq<NodeId>>, n: NodeId)
    requires t != map[] && Pruned(SearchCycles(t)) == pruned && pruned != []
    ensures NextSpec(t, n) == Dedup(Successors(pruned, n))
  {
  }

  // Node lists of the examples, named by their elements.
  const L0: seq<NodeId> := [NodeId(0)]
  const L1: seq<NodeId> := [NodeId(1)]
  const L2: seq<NodeId> := [NodeId(2)]
  const L3: seq<NodeId> := [NodeId(3)]
  const L4: seq<NodeId> := [NodeId(4)]
  const L5: seq<NodeId> := [NodeId(5)]
  const L6: seq<NodeId> := [NodeId(6)]
  const L7: seq<NodeId> := [NodeId(7)]
  const L8: seq<NodeId> := [NodeId(8)]
  const L9: seq<NodeId> := [NodeId(9)]
  const L01: seq<NodeId> := [NodeId(0), NodeId(1)]
  const L02: seq<NodeId> := [NodeId(0), NodeId(2)]
  const L03: seq<NodeId> := [NodeId(0), NodeId(3)]
  const L04: seq<NodeId> := [NodeId(0), NodeId(4)]
  const L12: seq<NodeId> := [NodeId(1), NodeId(2)]
  const L13: seq<NodeId> := [NodeId(1), NodeId(3)]
  const L14: seq<NodeId> := [NodeId(1), NodeId(4)]
  const L15: seq<NodeId> := [NodeId(1), NodeId(5)]
  const L23: seq<NodeId> := [NodeId(2), NodeId(3)]
  const L24: seq<NodeId> := [NodeId(2), NodeId(4)]
  const L26: seq<NodeId> := [NodeId(2), NodeId(6)]
  const L32: seq<NodeId> := [NodeId(3), NodeId(2)]
  const L34: seq<NodeId> := [NodeId(3), NodeId(4)]
  const L35: seq<NodeId> := [NodeId(3), NodeId(5)]
  const L41: seq<NodeId> := [NodeId(4), NodeId(1)]
  const L42: seq<NodeId> := [NodeId(4), NodeId(2)]
  const L45: seq<NodeId> := [NodeId(4), NodeId(5)]
  const L47: seq<NodeId> := [NodeId(4), NodeId(7)]
  const L48: seq<NodeId> := [NodeId(4), NodeId(8)]
  const L52: seq<NodeId> := [NodeId(5), NodeId(2)]
  const L56: seq<NodeId> := [NodeId(5), NodeId(6)]
  const L57: seq<NodeId> := [NodeId(5), NodeId(7)]
  const L63: seq<NodeId> := [NodeId(6), NodeId(3)]
  const L65: seq<NodeId> := [NodeId(6), NodeId(5)]
  const L68: seq<NodeId> := [NodeId(6), NodeId(8)]
  const L78: seq<NodeId> := [NodeId(7), NodeId(8)]
  const L85: seq<NodeId> := [NodeId(8), NodeId(5)]
  const L89: seq<NodeId> := [NodeId(8), NodeId(9)]
  const L96: seq<NodeId> := [NodeId(9), NodeId(6)]
  const L024: seq<NodeId> := [NodeId(0), NodeId(2), NodeId(4)]
  const L034: seq<NodeId> := [NodeId(0), NodeId(3), NodeId(4)]
  const L134: seq<NodeId> := [NodeId(1), NodeId(3), NodeId(4)]
  const L135: seq<NodeId> := [NodeId(1), NodeId(3), NodeId(5)]
  const L145: seq<NodeId> := [NodeId(1), NodeId(4), NodeId(5)]
  const L147: seq<NodeId> := [NodeId(1), NodeId(4), NodeId(7)]
  const L157: seq<NodeId> := [NodeId(1), NodeId(5), NodeId(7)]
  const L246: seq<NodeId> := [NodeId(2), NodeId(4), NodeId(6)]
  const L359: seq<NodeId> := [NodeId(3), NodeId(5), NodeId(9)]
  const L579: seq<NodeId> := [NodeId(5), NodeId(7), NodeId(9)]
  const L0341: seq<NodeId> := [NodeId(0), NodeId(3), NodeId(4), NodeId(1)]
  const L1342: seq<NodeId> := [NodeId(1), NodeId(3), NodeId(4), NodeId(2)]
  const L1452: seq<NodeId> := [NodeId(1), NodeId(4), NodeId(5), NodeId(2)]
  const L1456: seq<NodeId> := [NodeId(1), NodeId(4), NodeId(5), NodeId(6)]
  const L1478: seq<NodeId> := [NodeId(1), NodeId(4), NodeId(7), NodeId(8)]
  const L2468: seq<NodeId> := [NodeId(2), NodeId(4), NodeId(6), NodeId(8)]
  const L4785: seq<NodeId> := [NodeId(4), NodeId(7), NodeId(8), NodeId(5)]
  const L5632: seq<NodeId> := [NodeId(5), NodeId(6), NodeId(3), NodeId(2)]
  const L6523: seq<NodeId> := [NodeId(6), NodeId(5), NodeId(2), NodeId(3)]
  const L8965: seq<NodeId> := [NodeId(8), NodeId(9), NodeId(6), NodeId(5)]
  const L03412: seq<NodeId> := [NodeId(0), NodeId(3), NodeId(4), NodeId(1), NodeId(2)]
  const L14563: seq<NodeId> := [NodeId(1), NodeId(4), NodeId(5), NodeId(6), NodeId(3)]
  const L14785: seq<NodeId> := [NodeId(1), NodeId(4), NodeId(7), NodeId(8), NodeId(5)]
  const L14789: seq<NodeId> := [NodeId(1), NodeId(4), NodeId(7), NodeId(8), NodeId(9)]
  const L145632: seq<NodeId> := [NodeId(1), NodeId(4), NodeId(5), NodeId(6), NodeId(3), NodeId(2)]
  const L147896: seq<NodeId> := [NodeId(1), NodeId(4), NodeId(7), NodeId(8), NodeId(9), NodeId(6)]
  const L478965: seq<NodeId> := [NodeId(4), NodeId(7), NodeId(8), NodeId(9), NodeId(6), NodeId(5)]
  const L1478963: seq<NodeId> := [NodeId(1), NodeId(4), NodeId(7), NodeId(8), NodeId(9), NodeId(6), NodeId(3)]
  const L1478965: seq<NodeId> := [NodeId(1), NodeId(4), NodeId(7), NodeId(8), NodeId(9), NodeId(6), NodeId(5)]
  const L14789652: seq<NodeId> := [NodeId(1), NodeId(4), NodeId(7), NodeId(8), NodeId(9), NodeId(6), NodeId(5), NodeId(2)]
  const L147896523: seq<NodeId> := [NodeId(1), NodeId(4), NodeId(7), NodeId(8), NodeId(9), NodeId(6), NodeId(5), NodeId(2), NodeId(3)]

  /** The `no_neighbors` test graph: 1→2. */
  const NoNeighborsGraph: Graph := map[NodeId(1) := L2]

  lemma NoNeighborsSearch0(t: Graph)
    requires Neighbors(t, NodeId(1)) == L2
    requires ValidStack(t, [Frame(NodeId(1), L1)])
    ensures ValidStack(t, [Frame(NodeId(2), L12)])
    ensures Dfs(t, [Frame(NodeId(1), L1)], {}, [])
         == Dfs(t, [Frame(NodeId(2), L12)], {NodeId(1)}, [])
  {
    var path := L1;
    var visited := {NodeId(1)};
    NoNeighborsSearch0Scan(path, visited);
    NoNeighborsSearch0Lists();
    SearchStep(t, [Frame(NodeId(1), L1)], {}, [],
               Frame(NodeId(1), path), [], L2, visited,
               [Frame(NodeId(2), L12)], [], [Frame(NodeId(2), L12)], []);
  }

  lemma NoNeighborsSearch0Lists()
    ensures [Frame(NodeId(1), L1)] == [] + [Frame(NodeId(1), L1)]
    ensures [Frame(NodeId(2), L12)] == [] + [Frame(NodeId(2), L12)]
    ensures {NodeId(1)} == {} + {NodeId(1)}
  {
  }

  lemma NoNeighborsSearch0Scan(path: seq<NodeId>, visited: set<NodeId>)
    requires path == L1 && visited == {NodeId(1)}
    ensures Expand(path, L2, visited).0 == [Frame(NodeId(2), L12)]
    ensures Expand(path, L2, visited).1 == []
  {
    ScanOne(path, visited, [], NodeId(2), L2, L12, 0, [],
            [], [], [Frame(NodeId(2), L12)], []);
  }

  lemma NoNeighborsSearch1(t: Graph)
    requires Neighbors(t, NodeId(2)) == []
    requires ValidStack(t, [Frame(NodeId(2), L12)])
    ensures ValidStack(t, [])
    ensures Dfs(t, [Frame(NodeId(2), L12)], {NodeId(1)}, [])
         == Dfs(t, [], {NodeId(1), NodeId(2)}, [])
  {
    var path := L12;
    var visited := {NodeId(1), NodeId(2)};
    NoNeighborsSearch1Scan(path, visited);
    NoNeighborsSearch1Lists();
    SearchStep(t, [Frame(NodeId(2), L12)], {NodeId(1)}, [],
               Frame(NodeId(2), path), [], [], visited,
               [], [], [], []);
  }

  lemma NoNeighborsSearch1Lists()
    ensures [Frame(NodeId(2), L12)] == [] + [Frame(NodeId(2), L12)]
    ensures {NodeId(1), NodeId(2)} == {NodeId(1)} + {NodeId(2)}
  {
  }

  lemma NoNeighborsSearch1Scan(path: seq<NodeId>, visited: set<NodeId>)
    requires path == L12 && visited == {NodeId(1), NodeId(2)}
    ensures Expand(path, [], visited).0 == []
    ensures Expand(path, [], visited).1 == []
  {
  }

  /** The search on a topology with the lists of `NoNeighborsGraph`, starting from NodeId(1). */
  lemma NoNeighborsSearch(t: Graph)
    requires t.Keys == {NodeId(1)}
    requires t[NodeId(1)] == L2
    ensures t != map[]
    ensures SearchCycles(t) == []
  {
    assert NodeId(1) in t.Keys;
    MinKeyUnique(t, NodeId(1));
    StartFrameValid(t, NodeId(1));
    NoNeighborsSearch0(t);
    NoNeighborsSearch1(t);
  }

  /** Every list of `NoNeighborsGraph` is already sorted. */
  lemma NoNeighborsSorted()
    ensures forall k | k in NoNeighborsGraph :: Sorted(NoNeighborsGraph[k])
  {
    assert Sorted(L2);
    assert NoNeighborsGraph.Keys == {NodeId(1)};
    assert NoNeighborsGraph[NodeId(1)] == L2;
  }

  /** So the topology `from` builds on `NoNeighborsGraph` is `NoNeighborsGraph` itself. */
  lemma NoNeighborsFrom(t: Graph)
    requires t.Keys == NoNeighborsGraph.Keys && forall k | k in t :: t[k] == Sort(NoNeighborsGraph[k])
    ensures t == NoNeighborsGraph
  {
    NoNeighborsSorted();
    FromKeepsSorted(NoNeighborsGraph, t);
  }

  lemma NoNeighborsLists(t: Graph)
    requires t == NoNeighborsGraph
    ensures t.Keys == {NodeId(1)}
    ensures t[NodeId(1)] == L2
  {
  }

  /** `no_neighbors`: what `next` returns for each node of the topology built from `NoNeighborsGraph`. */
  lemma NoNeighbors(t: Graph)
    requires t.Keys == NoNeighborsGraph.Keys && forall k | k in t :: t[k] == Sort(NoNeighborsGraph[k])
    ensures NextSpec(t, NodeId(1)) == L2
    ensures NextSpec(t, NodeId(2)) == []
  {
    NoNeighborsFrom(t);
    NoNeighborsLists(t);
    NoNeighborsSearch(t);
    NextWithoutCycles(t, NodeId(1));
    NextWithoutCycles(t, NodeId(2));
  }

  /** The `one_neighbor` test graph: 1↔2. */
  const OneNeighborGraph: Graph := map[NodeId(1) := L2, NodeId(2) := L1]

  lemma OneNeighborSearch0(t: Graph)
    requires Neighbors(t, NodeId(1)) == L2
    requires ValidStack(t, [Frame(NodeId(1), L1)])
    ensures ValidStack(t, [Frame(NodeId(2), L12)])
    ensures Dfs(t, [Frame(NodeId(1), L1)], {}, [])
         == Dfs(t, [Frame(NodeId(2), L12)], {NodeId(1)}, [])
  {
    var path := L1;
    var visited := {NodeId(1)};
    OneNeighborSearch0Scan(path, visited);
    OneNeighborSearch0Lists();
    SearchStep(t, [Frame(NodeId(1), L1)], {}, [],
               Frame(NodeId(1), path), [], L2, visited,
               [Frame(NodeId(2), L12)], [], [Frame(NodeId(2), L12)], []);
  }

  lemma OneNeighborSearch0Lists()
    ensures [Frame(NodeId(1), L1)] == [] + [Frame(NodeId(1), L1)]
    ensures [Frame(NodeId(2), L12)] == [] + [Frame(NodeId(2), L12)]
    ensures {NodeId(1)} == {} + {NodeId(1)}
  {
  }

  lemma OneNeighborSearch0Scan(path: seq<NodeId>, visited: set<NodeId>)
    requires path == L1 && visited == {NodeId(1)}
    ensures Expand(path, L2, visited).0 == [Frame(NodeId(2), L12)]
    ensures Expand(path, L2, visited).1 == []
  {
    ScanOne(path, visited, [], NodeId(2), L2, L12, 0, [],
            [], [], [Frame(NodeId(2), L12)], []);
  }

  lemma OneNeighborSearch1(t: Graph)
    requires Neighbors(t, NodeId(2)) == L1
    requires ValidStack(t, [Frame(NodeId(2), L12)])
    ensures ValidStack(t, [])
    ensures Dfs(t, [Frame(NodeId(2), L12)], {NodeId(1)}, [])
         == Dfs(t, [], {NodeId(1), NodeId(2)}, [L12])
  {
    var path := L12;
    var visited := {NodeId(1), NodeId(2)};
    OneNeighborSearch1Scan(path, visited);
    OneNeighborSearch1Lists();
    SearchStep(t, [Frame(NodeId(2), L12)], {NodeId(1)}, [],
               Frame(NodeId(2), path), [], L1, visited,
               [], [L12], [], [L12]);
  }

  lemma OneNeighborSearch1Lists()
    ensures [Frame(NodeId(2), L12)] == [] + [Frame(NodeId(2), L12)]
    ensures [L12] == [] + [L12]
    ensures {NodeId(1), NodeId(2)} == {NodeId(1)} + {NodeId(2)}
  {
  }

  lemma OneNeighborSearch1Scan(path: seq<NodeId>, visited: set<NodeId>)
    requires path == L12 && visited == {NodeId(1), NodeId(2)}
    ensures Expand(path, L1, visited).0 == []
    ensures Expand(path, L1, visited).1 == [L12]
  {
    ScanOne(path, visited, [], NodeId(1), L1, [], 0, L12,
            [], [], [], [L12]);
  }

  /** The search on a topology with the lists of `OneNeighborGraph`, starting from NodeId(1). */
  lemma OneNeighborSearch(t: Graph)
    requires t.Keys == {NodeId(1), NodeId(2)}
    requires t[NodeId(1)] == L2
    requires t[NodeId(2)] == L1
    ensures t != map[]
    ensures SearchCycles(t) == [L12]
  {
    assert NodeId(1) in t.Keys;
    MinKeyUnique(t, NodeId(1));
    StartFrameValid(t, NodeId(1));
    OneNeighborSearch0(t);
    OneNeighborSearch1(t);
  }

  /** Pruning the cycles found on `OneNeighborGraph`. */
  lemma OneNeighborPrune0(original: seq<seq<NodeId>>)
    requires |original| > 0 && original[0] == L12
    ensures PruneFrom(original, 0, [L12]) == PruneFrom(original, 1, [L12])
  {
    var current := [L12];
    var x := L12;
    OneNeighborPrune0Test(current, x);
    PruneStep(original, 0, x, current, [L12]);
  }

  lemma OneNeighborPrune0Test(current: seq<seq<NodeId>>, x: seq<NodeId>)
    requires current == [L12] && x == L12
    ensures !ContainedElsewhere(current, x)
  {
    NoneContainsSelf(current, x, 0);
    NotContained(current, x);
  }

  lemma OneNeighborPruneFrom0(original: seq<seq<NodeId>>)
    requires original == [L12]
    ensures PruneFrom(original, 0, [L12]) == [L12]
  {
    OneNeighborPrune0(original);
  }

  lemma OneNeighborPrune(original: seq<seq<NodeId>>)
    requires original == [L12]
    ensures Pruned(original) == [L12]
  {
    OneNeighborPruneFrom0(original);
  }

  lemma OneNeighborSelect1(cycles: seq<seq<NodeId>>, n: NodeId)
    requires cycles == [L12] && n == NodeId(1)
    ensures Dedup(Successors(cycles, n)) == L2
  {
    SuccessorAt(L12, n, 0, NodeId(2));
    SuccessorsOne(L12, n);
    DedupOne(NodeId(2));
  }

  lemma OneNeighborSelect2(cycles: seq<seq<NodeId>>, n: NodeId)
    requires cycles == [L12] && n == NodeId(2)
    ensures Dedup(Successors(cycles, n)) == L1
  {
    SuccessorAt(L12, n, 1, NodeId(1));
    SuccessorsOne(L12, n);
    DedupOne(NodeId(1));
  }

  /** Every list of `OneNeighborGraph` is already sorted. */
  lemma OneNeighborSorted()
    ensures forall k | k in OneNeighborGraph :: Sorted(OneNeighborGraph[k])
  {
    assert Sorted(L1);
    assert Sorted(L2);
    assert OneNeighborGraph.Keys == {NodeId(1), NodeId(2)};
    assert OneNeighborGraph[NodeId(1)] == L2 && OneNeighborGraph[NodeId(2)] == L1;
  }

  /** So the topology `from` builds on `OneNeighborGraph` is `OneNeighborGraph` itself. */
  lemma OneNeighborFrom(t: Graph)
    requires t.Keys == OneNeighborGraph.Keys && forall k | k in t :: t[k] == Sort(OneNeighborGraph[k])
    ensures t == OneNeighborGraph
  {
    OneNeighborSorted();
    FromKeepsSorted(OneNeighborGraph, t);
  }

  lemma OneNeighborLists(t: Graph)
    requires t == OneNeighborGraph
    ensures t.Keys == {NodeId(1), NodeId(2)}
    ensures t[NodeId(1)] == L2
    ensures t[NodeId(2)] == L1
  {
  }

  /** `one_neighbor`: what `next` returns for each node of the topology built from `OneNeighborGraph`. */
  lemma OneNeighbor(t: Graph)
    requires t.Keys == OneNeighborGraph.Keys && forall k | k in t :: t[k] == Sort(OneNeighborGraph[k])
    ensures NextSpec(t, NodeId(1)) == L2
    ensures NextSpec(t, NodeId(2)) == L1
  {
    OneNeighborFrom(t);
    OneNeighborLists(t);
    OneNeighborSearch(t);
    OneNeighborPrune(SearchCycles(t));
    OneNeighborSelect1([L12], NodeId(1));
    NextFromPruned(t, [L12], NodeId(1));
    OneNeighborSelect2([L12], NodeId(2));
    NextFromPruned(t, [L12], NodeId(2));
  }

  /** The `two_neighbors` test graph: the 2x2 grid. */
  const TwoNeighborsGraph: Graph := map[NodeId(1) := L23, NodeId(2) := L14, NodeId(3) := L14, NodeId(4) := L23]

  lemma TwoNeighborsSearch0(t: Graph)
    requires Neighbors(t, NodeId(1)) == L23
    requires ValidStack(t, [Frame(NodeId(1), L1)])
    ensures ValidStack(t, [Frame(NodeId(2), L12), Frame(NodeId(3), L13)])
    ensures Dfs(t, [Frame(NodeId(1), L1)], {}, [])
         == Dfs(t, [Frame(NodeId(2), L12), Frame(NodeId(3), L13)], {NodeId(1)}, [])
  {
    var path := L1;
    var visited := {NodeId(1)};
    TwoNeighborsSearch0Scan(path, visited);
    TwoNeighborsSearch0Lists();
    SearchStep(t, [Frame(NodeId(1), L1)], {}, [],
               Frame(NodeId(1), path), [], L23, visited,
               [Frame(NodeId(2), L12), Frame(NodeId(3), L13)], [], [Frame(NodeId(2), L12), Frame(NodeId(3), L13)], []);
  }

  lemma TwoNeighborsSearch0Lists()
    ensures [Frame(NodeId(1), L1)] == [] + [Frame(NodeId(1), L1)]
    ensures [Frame(NodeId(2), L12), Frame(NodeId(3), L13)] == [] + [Frame(NodeId(2), L12), Frame(NodeId(3), L13)]
    ensures {NodeId(1)} == {} + {NodeId(1)}
  {
  }

  lemma TwoNeighborsSearch0Scan(path: seq<NodeId>, visited: set<NodeId>)
    requires path == L1 && visited == {NodeId(1)}
    ensures Expand(path, L23, visited).0 == [Frame(NodeId(2), L12), Frame(NodeId(3), L13)]
    ensures Expand(path, L23, visited).1 == []
  {
    ScanOne(path, visited, [], NodeId(2), L2, L12, 0, [],
            [], [], [Frame(NodeId(2), L12)], []);
    ScanOne(path, visited, L2, NodeId(3), L23, L13, 0, [],
            [Frame(NodeId(2), L12)], [], [Frame(NodeId(2), L12), Frame(NodeId(3), L13)], []);
  }

  lemma TwoNeighborsSearch1(t: Graph)
    requires Neighbors(t, NodeId(3)) == L14
    requires ValidStack(t, [Frame(NodeId(2), L12), Frame(NodeId(3), L13)])
    ensures ValidStack(t, [Frame(NodeId(2), L12), Frame(NodeId(4), L134)])
    ensures Dfs(t, [Frame(NodeId(2), L12), Frame(NodeId(3), L13)], {NodeId(1)}, [])
         == Dfs(t, [Frame(NodeId(2), L12), Frame(NodeId(4), L134)], {NodeId(1), NodeId(3)}, [L13])
  {
    var path := L13;
    var visited := {NodeId(1), NodeId(3)};
    TwoNeighborsSearch1Scan(path, visited);
    TwoNeighborsSearch1Lists();
    SearchStep(t, [Frame(NodeId(2), L12), Frame(NodeId(3), L13)], {NodeId(1)}, [],
               Frame(NodeId(3), path), [Frame(NodeId(2), L12)], L14, visited,
               [Frame(NodeId(4), L134)], [L13], [Frame(NodeId(2), L12), Frame(NodeId(4), L134)], [L13]);
  }

  lemma TwoNeighborsSearch1Lists()
    ensures [Frame(NodeId(2), L12), Frame(NodeId(3), L13)] == [Frame(NodeId(2), L12)] + [Frame(NodeId(3), L13)]
    ensures [Frame(NodeId(2), L12), Frame(NodeId(4), L134)] == [Frame(NodeId(2), L12)] + [Frame(NodeId(4), L134)]
    ensures [L13] == [] + [L13]
    ensures {NodeId(1), NodeId(3)} == {NodeId(1)} + {NodeId(3)}
  {
  }

  lemma TwoNeighborsSearch1Scan(path: seq<NodeId>, visited: set<NodeId>)
    requires path == L13 && visited == {NodeId(1), NodeId(3)}
    ensures Expand(path, L14, visited).0 == [Frame(NodeId(4), L134)]
    ensures Expand(path, L14, visited).1 == [L13]
  {
    ScanOne(path, visited, [], NodeId(1), L1, [], 0, L13,
            [], [], [], [L13]);
    ScanOne(path, visited, L1, NodeId(4), L14, L134, 0, [],
            [], [L13], [Frame(NodeId(4), L134)], [L13]);
  }

  lemma TwoNeighborsSearch2(t: Graph)
    requires Neighbors(t, NodeId(4)) == L23
    requires ValidStack(t, [Frame(NodeId(2), L12), Frame(NodeId(4), L134)])
    ensures ValidStack(t, [Frame(NodeId(2), L12), Frame(NodeId(2), L1342)])
    ensures Dfs(t, [Frame(NodeId(2), L12), Frame(NodeId(4), L134)], {NodeId(1), NodeId(3)}, [L13])
         == Dfs(t, [Frame(NodeId(2), L12), Frame(NodeId(2), L1342)], {NodeId(1), NodeId(3), NodeId(4)}, [L13, L34])
  {
    var path := L134;
    var visited := {NodeId(1), NodeId(3), NodeId(4)};
    TwoNeighborsSearch2Scan(path, visited);
    TwoNeighborsSearch2Lists();
    SearchStep(t, [Frame(NodeId(2), L12), Frame(NodeId(4), L134)], {NodeId(1), NodeId(3)}, [L13],
               Frame(NodeId(4), path), [Frame(NodeId(2), L12)], L23, visited,
               [Frame(NodeId(2), L1342)], [L34], [Frame(NodeId(2), L12), Frame(NodeId(2), L1342)], [L13, L34]);
  }

  lemma TwoNeighborsSearch2Lists()
    ensures [Frame(NodeId(2), L12), Frame(NodeId(4), L134)] == [Frame(NodeId(2), L12)] + [Frame(NodeId(4), L134)]
    ensures [Frame(NodeId(2), L12), Frame(NodeId(2), L1342)] == [Frame(NodeId(2), L12)] + [Frame(NodeId(2), L1342)]
    ensures [L13, L34] == [L13] + [L34]
    ensures {NodeId(1), NodeId(3), NodeId(4)} == {NodeId(1), NodeId(3)} + {NodeId(4)}
  {
  }

  lemma TwoNeighborsSearch2Scan(path: seq<NodeId>, visited: set<NodeId>)
    requires path == L134 && visited == {NodeId(1), NodeId(3), NodeId(4)}
    ensures Expand(path, L23, visited).0 == [Frame(NodeId(2), L1342)]
    ensures Expand(path, L23, visited).1 == [L34]
  {
    ScanOne(path, visited, [], NodeId(2), L2, L1342, 0, [],
            [], [], [Frame(NodeId(2), L1342)], []);
    ScanOne(path, visited, L2, NodeId(3), L23, [], 1, L34,
            [Frame(NodeId(2), L1342)], [], [Frame(NodeId(2), L1342)], [L34]);
  }

  lemma TwoNeighborsSearch3(t: Graph)
    requires Neighbors(t, NodeId(2)) == L14
    requires ValidStack(t, [Frame(NodeId(2), L12), Frame(NodeId(2), L1342)])
    ensures ValidStack(t, [Frame(NodeId(2), L12)])
    ensures Dfs(t, [Frame(NodeId(2), L12), Frame(NodeId(2), L1342)], {NodeId(1), NodeId(3), NodeId(4)}, [L13, L34])
         == Dfs(t, [Frame(NodeId(2), L12)], {NodeId(1), NodeId(2), NodeId(3), NodeId(4)}, [L13, L34, L1342, L42])
  {
    var path := L1342;
    var visited := {NodeId(1), NodeId(2), NodeId(3), NodeId(4)};
    TwoNeighborsSearch3Scan(path, visited);
    TwoNeighborsSearch3Lists();
    SearchStep(t, [Frame(NodeId(2), L12), Frame(NodeId(2), L1342)], {NodeId(1), NodeId(3), NodeId(4)}, [L13, L34],
               Frame(NodeId(2), path), [Frame(NodeId(2), L12)], L14, visited,
               [], [L1342, L42], [Frame(NodeId(2), L12)], [L13, L34, L1342, L42]);
  }

  lemma TwoNeighborsSearch3Lists()
    ensures [Frame(NodeId(2), L12), Frame(NodeId(2), L1342)] == [Frame(NodeId(2), L12)] + [Frame(NodeId(2), L1342)]
    ensures [Frame(NodeId(2), L12)] == [Frame(NodeId(2), L12)] + []
    ensures [L13, L34, L1342, L42] == [L13, L34] + [L1342, L42]
    ensures {NodeId(1), NodeId(2), NodeId(3), NodeId(4)} == {NodeId(1), NodeId(3), NodeId(4)} + {NodeId(2)}
  {
  }

  lemma TwoNeighborsSearch3Scan(path: seq<NodeId>, visited: set<NodeId>)
    requires path == L1342 && visited == {NodeId(1), NodeId(2), NodeId(3), NodeId(4)}
    ensures Expand(path, L14, visited).0 == []
    ensures Expand(path, L14, visited).1 == [L1342, L42]
  {
    ScanOne(path, visited, [], NodeId(1), L1, [], 0, L1342,
            [], [], [], [L1342]);
    ScanOne(path, visited, L1, NodeId(4), L14, [], 2, L42,
            [], [L1342], [], [L1342, L42]);
  }

  lemma TwoNeighborsSearch4(t: Graph)
    requires Neighbors(t, NodeId(2)) == L14
    requires ValidStack(t, [Frame(NodeId(2), L12)])
    ensures ValidStack(t, [])
    ensures Dfs(t, [Frame(NodeId(2), L12)], {NodeId(1), NodeId(2), NodeId(3), NodeId(4)}, [L13, L34, L1342, L42])
         == Dfs(t, [], {NodeId(1), NodeId(2), NodeId(3), NodeId(4)}, [L13, L34, L1342, L42, L12])
  {
    var path := L12;
    var visited := {NodeId(1), NodeId(2), NodeId(3), NodeId(4)};
    TwoNeighborsSearch4Scan(path, visited);
    TwoNeighborsSearch4Lists();
    SearchStep(t, [Frame(NodeId(2), L12)], {NodeId(1), NodeId(2), NodeId(3), NodeId(4)}, [L13, L34, L1342, L42],
               Frame(NodeId(2), path), [], L14, visited,
               [], [L12], [], [L13, L34, L1342, L42, L12]);
  }

  lemma TwoNeighborsSearch4Lists()
    ensures [Frame(NodeId(2), L12)] == [] + [Frame(NodeId(2), L12)]
    ensures [L13, L34, L1342, L42, L12] == [L13, L34, L1342, L42] + [L12]
    ensures {NodeId(1), NodeId(2), NodeId(3), NodeId(4)} == {NodeId(1), NodeId(2), NodeId(3), NodeId(4)} + {NodeId(2)}
  {
  }

  lemma TwoNeighborsSearch4Scan(path: seq<NodeId>, visited: set<NodeId>)
    requires path == L12 && visited == {NodeId(1), NodeId(2), NodeId(3), NodeId(4)}
    ensures Expand(path, L14, visited).0 == []
    ensures Expand(path, L14, visited).1 == [L12]
  {
    ScanOne(path, visited, [], NodeId(1), L1, [], 0, L12,
            [], [], [], [L12]);
    ScanOne(path, visited, L1, NodeId(4), L14, [], 0, [],
            [], [L12], [], [L12]);
  }

  /** The search on a topology with the lists of `TwoNeighborsGraph`, starting from NodeId(1). */
  lemma TwoNeighborsSearch(t: Graph)
    requires t.Keys == {NodeId(1), NodeId(2), NodeId(3), NodeId(4)}
    requires t[NodeId(1)] == L23
    requires t[NodeId(2)] == L14
    requires t[NodeId(3)] == L14
    requires t[NodeId(4)] == L23
    ensures t != map[]
    ensures SearchCycles(t) == [L13, L34, L1342, L42, L12]
  {
    assert NodeId(1) in t.Keys;
    MinKeyUnique(t, NodeId(1));
    StartFrameValid(t, NodeId(1));
    TwoNeighborsSearch0(t);
    TwoNeighborsSearch1(t);
    TwoNeighborsSearch2(t);
    TwoNeighborsSearch3(t);
    TwoNeighborsSearch4(t);
  }

  /** Pruning the cycles found on `TwoNeighborsGraph`. */
  lemma TwoNeighborsPrune0(original: seq<seq<NodeId>>)
    requires |original| > 0 && original[0] == L13
    ensures PruneFrom(original, 0, [L13, L34, L1342, L42, L12]) == PruneFrom(original, 1, [L34, L1342, L42, L12])
  {
    var current := [L13, L34, L1342, L42, L12];
    var x := L13;
    TwoNeighborsPrune0Test(current, x);
    TwoNeighborsPrune0Without(current, x);
    PruneStep(original, 0, x, current, [L34, L1342, L42, L12]);
  }

  lemma TwoNeighborsPrune0Test(current: seq<seq<NodeId>>, x: seq<NodeId>)
    requires current == [L13, L34, L1342, L42, L12] && x == L13
    ensures ContainedElsewhere(current, x)
  {
    ContainedAt(current, x, 2, L1342);
  }

  lemma TwoNeighborsPrune0Without(current: seq<seq<NodeId>>, x: seq<NodeId>)
    requires current == [L13, L34, L1342, L42, L12] && x == L13
    ensures Without(current, x) == [L34, L1342, L42, L12]
  {
    forall j | 0 <= j < |current| && j != 0 ensures current[j] != x {
      if j == 1 {
        assert current[j][0] != x[0];
      } else if j == 2 {
        assert |current[j]| != |x|;
      } else if j == 3 {
        assert current[j][0] != x[0];
      } else {
        assert current[j][1] != x[1];
      }
    }
    WithoutOne(current, x, 0);
  }

  lemma TwoNeighborsPrune1(original: seq<seq<NodeId>>)
    requires |original| > 1 && original[1] == L34
    ensures PruneFrom(original, 1, [L34, L1342, L42, L12]) == PruneFrom(original, 2, [L1342, L42, L12])
  {
    var current := [L34, L1342, L42, L12];
    var x := L34;
    TwoNeighborsPrune1Test(current, x);
    TwoNeighborsPrune1Without(current, x);
    PruneStep(original, 1, x, current, [L1342, L42, L12]);
  }

  lemma TwoNeighborsPrune1Test(current: seq<seq<NodeId>>, x: seq<NodeId>)
    requires current == [L34, L1342, L42, L12] && x == L34
    ensures ContainedElsewhere(current, x)
  {
    ContainedAt(current, x, 1, L1342);
  }

  lemma TwoNeighborsPrune1Without(current: seq<seq<NodeId>>, x: seq<NodeId>)
    requires current == [L34, L1342, L42, L12] && x == L34
    ensures Without(current, x) == [L1342, L42, L12]
  {
    forall j | 0 <= j < |current| && j != 0 ensures current[j] != x {
      if j == 1 {
        assert |current[j]| != |x|;
      } else if j == 2 {
        assert current[j][0] != x[0];
      } else {
        assert current[j][0] != x[0];
      }
    }
    WithoutOne(current, x, 0);
  }

  lemma TwoNeighborsPrune2(original: seq<seq<NodeId>>)
    requires |original| > 2 && original[2] == L1342
    ensures PruneFrom(original, 2, [L1342, L42, L12]) == PruneFrom(original, 3, [L1342, L42, L12])
  {
    var current := [L1342, L42, L12];
    var x := L1342;
    TwoNeighborsPrune2Test(current, x);
    PruneStep(original, 2, x, current, [L1342, L42, L12]);
  }

  lemma TwoNeighborsPrune2Test(current: seq<seq<NodeId>>, x: seq<NodeId>)
    requires current == [L1342, L42, L12] && x == L1342
    ensures !ContainedElsewhere(current, x)
  {
    NoneContainsSelf(current, x, 0);
    NoneContainsNext(current, x, 1, NodeId(1));
    NoneContainsNext(current, x, 2, NodeId(3));
    NotContained(current, x);
  }

  lemma TwoNeighborsPrune3(original: seq<seq<NodeId>>)
    requires |original| > 3 && original[3] == L42
    ensures PruneFrom(original, 3, [L1342, L42, L12]) == PruneFrom(original, 4, [L1342, L12])
  {
    var current := [L1342, L42, L12];
    var x := L42;
    TwoNeighborsPrune3Test(current, x);
    TwoNeighborsPrune3Without(current, x);
    PruneStep(original, 3, x, current, [L1342, L12]);
  }

  lemma TwoNeighborsPrune3Test(current: seq<seq<NodeId>>, x: seq<NodeId>)
    requires current == [L1342, L42, L12] && x == L42
    ensures ContainedElsewhere(current, x)
  {
    ContainedAt(current, x, 0, L1342);
  }

  lemma TwoNeighborsPrune3Without(current: seq<seq<NodeId>>, x: seq<NodeId>)
    requires current == [L1342, L42, L12] && x == L42
    ensures Without(current, x) == [L1342, L12]
  {
    forall j | 0 <= j < |current| && j != 1 ensures current[j] != x {
      if j == 0 {
        assert |current[j]| != |x|;
      } else {
        assert current[j][0] != x[0];
      }
    }
    WithoutOne(current, x, 1);
  }

  lemma TwoNeighborsPrune4(original: seq<seq<NodeId>>)
    requires |original| > 4 && original[4] == L12
    ensures PruneFrom(original, 4, [L1342, L12]) == PruneFrom(original, 5, [L1342])
  {
    var current := [L1342, L12];
    var x := L12;
    TwoNeighborsPrune4Test(current, x);
    TwoNeighborsPrune4Without(current, x);
    PruneStep(original, 4, x, current, [L1342]);
  }

  lemma TwoNeighborsPrune4Test(current: seq<seq<NodeId>>, x: seq<NodeId>)
    requires current == [L1342, L12] && x == L12
    ensures ContainedElsewhere(current, x)
  {
    ContainedAt(current, x, 0, L1342);
  }

  lemma TwoNeighborsPrune4Without(current: seq<seq<NodeId>>, x: seq<NodeId>)
    requires current == [L1342, L12] && x == L12
    ensures Without(current, x) == [L1342]
  {
    forall j | 0 <= j < |current| && j != 1 ensures current[j] != x {
      if j == 0 {
        assert |current[j]| != |x|;
      }
    }
    WithoutOne(current, x, 1);
  }

  lemma TwoNeighborsPruneFrom4(original: seq<seq<NodeId>>)
    requires original == [L13, L34, L1342, L42, L12]
    ensures PruneFrom(original, 4, [L1342, L12]) == [L1342]
  {
    TwoNeighborsPrune4(original);
  }

  lemma TwoNeighborsPruneFrom3(original: seq<seq<NodeId>>)
    requires original == [L13, L34, L1342, L42, L12]
    ensures PruneFrom(original, 3, [L1342, L42, L12]) == [L1342]
  {
    TwoNeighborsPrune3(original);
    TwoNeighborsPruneFrom4(original);
  }

  lemma TwoNeighborsPruneFrom2(original: seq<seq<NodeId>>)
    requires original == [L13, L34, L1342, L42, L12]
    ensures PruneFrom(original, 2, [L1342, L42, L12]) == [L1342]
  {
    TwoNeighborsPrune2(original);
    TwoNeighborsPruneFrom3(original);
  }

  lemma TwoNeighborsPruneFrom1(original: seq<seq<NodeId>>)
    requires original == [L13, L34, L1342, L42, L12]
    ensures PruneFrom(original, 1, [L34, L1342, L42, L12]) == [L1342]
  {
    TwoNeighborsPrune1(original);
    TwoNeighborsPruneFrom2(original);
  }

  lemma TwoNeighborsPruneFrom0(original: seq<seq<NodeId>>)
    requires original == [L13, L34, L1342, L42, L12]
    ensures PruneFrom(original, 0, [L13, L34, L1342, L42, L12]) == [L1342]
  {
    TwoNeighborsPrune0(original);
    TwoNeighborsPruneFrom1(original);
  }

  lemma TwoNeighborsPrune(original: seq<seq<NodeId>>)
    requires original == [L13, L34, L1342, L42, L12]
    ensures Pruned(original) == [L1342]
  {
    TwoNeighborsPruneFrom0(original);
  }

  lemma TwoNeighborsSelect1(cycles: seq<seq<NodeId>>, n: NodeId)
    requires cycles == [L1342] && n == NodeId(1)
    ensures Dedup(Successors(cycles, n)) == L3
  {
    SuccessorAt(L1342, n, 0, NodeId(3));
    SuccessorsOne(L1342, n);
    DedupOne(NodeId(3));
  }

  lemma TwoNeighborsSelect2(cycles: seq<seq<NodeId>>, n: NodeId)
    requires cycles == [L1342] && n == NodeId(2)
    ensures Dedup(Successors(cycles, n)) == L1
  {
    SuccessorAt(L1342, n, 3, NodeId(1));
    SuccessorsOne(L1342, n);
    DedupOne(NodeId(1));
  }

  lemma TwoNeighborsSelect3(cycles: seq<seq<NodeId>>, n: NodeId)
    requires cycles == [L1342] && n == NodeId(3)
    ensures Dedup(Successors(cycles, n)) == L4
  {
    SuccessorAt(L1342, n, 1, NodeId(4));
    SuccessorsOne(L1342, n);
    DedupOne(NodeId(4));
  }

  lemma TwoNeighborsSelect4(cycles: seq<seq<NodeId>>, n: NodeId)
    requires cycles == [L1342] && n == NodeId(4)
    ensures Dedup(Successors(cycles, n)) == L2
  {
    SuccessorAt(L1342, n, 2, NodeId(2));
    SuccessorsOne(L1342, n);
    DedupOne(NodeId(2));
  }

  /** Every list of `TwoNeighborsGraph` is already sorted. */
  lemma TwoNeighborsSorted()
    ensures forall k | k in TwoNeighborsGraph :: Sorted(TwoNeighborsGraph[k])
  {
    assert Sorted(L14);
    assert Sorted(L23);
    assert TwoNeighborsGraph.Keys == {NodeId(1), NodeId(2), NodeId(3), NodeId(4)};
    assert TwoNeighborsGraph[NodeId(1)] == L23 && TwoNeighborsGraph[NodeId(2)] == L14 && TwoNeighborsGraph[NodeId(3)] == L14 && TwoNeighborsGraph[NodeId(4)] == L23;
  }

  /** So the topology `from` builds on `TwoNeighborsGraph` is `TwoNeighborsGraph` itself. */
  lemma TwoNeighborsFrom(t: Graph)
    requires t.Keys == TwoNeighborsGraph.Keys && forall k | k in t :: t[k] == Sort(TwoNeighborsGraph[k])
    ensures t == TwoNeighborsGraph
  {
    TwoNeighborsSorted();
    FromKeepsSorted(TwoNeighborsGraph, t);
  }

  lemma TwoNeighborsLists(t: Graph)
    requires t == TwoNeighborsGraph
    ensures t.Keys == {NodeId(1), NodeId(2), NodeId(3), NodeId(4)}
    ensures t[NodeId(1)] == L23
    ensures t[NodeId(2)] == L14
    ensures t[NodeId(3)] == L14
    ensures t[NodeId(4)] == L23
  {
  }

  /** `two_neighbors`: what `next` returns for each node of the topology built from `TwoNeighborsGraph`. */
  lemma TwoNeighbors(t: Graph)
    requires t.Keys == TwoNeighborsGraph.Keys && forall k | k in t :: t[k] == Sort(TwoNeighborsGraph[k])
    ensures NextSpec(t, NodeId(1)) == L3
    ensures NextSpec(t, NodeId(2)) == L1
    ensures NextSpec(t, NodeId(3)) == L4
    ensures NextSpec(t, NodeId(4)) == L2
  {
    TwoNeighborsFrom(t);
    TwoNeighborsLists(t);
    TwoNeighborsSearch(t);
    TwoNeighborsPrune(SearchCycles(t));
    TwoNeighborsSelect1([L1342], NodeId(1));
    NextFromPruned(t, [L1342], NodeId(1));
    TwoNeighborsSelect2([L1342], NodeId(2));
    NextFromPruned(t, [L1342], NodeId(2));
    TwoNeighborsSelect3([L1342], NodeId(3));
    NextFromPruned(t, [L1342], NodeId(3));
    TwoNeighborsSelect4([L1342], NodeId(4));
    NextFromPruned(t, [L1342], NodeId(4));
  }

  /** The `two_neighbors_2` test graph: the 2x2 grid with a tail 1↔2 and nodes 0, 1, 3, 4. */
  const TwoNeighbors2Graph: Graph := map[NodeId(0) := L13, NodeId(1) := L024, NodeId(2) := L1, NodeId(3) := L04, NodeId(4) := L13]

  lemma TwoNeighbors2Search0(t: Graph)
    requires Neighbors(t, NodeId(0)) == L13
    requires ValidStack(t, [Frame(NodeId(0), L0)])
    ensures ValidStack(t, [Frame(NodeId(1), L01), Frame(NodeId(3), L03)])
    ensures Dfs(t, [Frame(NodeId(0), L0)], {}, [])
         == Dfs(t, [Frame(NodeId(1), L01), Frame(NodeId(3), L03)], {NodeId(0)}, [])
  {
    var path := L0;
    var visited := {NodeId(0)};
    TwoNeighbors2Search0Scan(path, visited);
    TwoNeighbors2Search0Lists();
    SearchStep(t, [Frame(NodeId(0), L0)], {}, [],
               Frame(NodeId(0), path), [], L13, visited,
               [Frame(NodeId(1), L01), Frame(NodeId(3), L03)], [], [Frame(NodeId(1), L01), Frame(NodeId(3), L03)], []);
  }

  lemma TwoNeighbors2Search0Lists()
    ensures [Frame(NodeId(0), L0)] == [] + [Frame(NodeId(0), L0)]
    ensures [Frame(NodeId(1), L01), Frame(NodeId(3), L03)] == [] + [Frame(NodeId(1), L01), Frame(NodeId(3), L03)]
    ensures {NodeId(0)} == {} + {NodeId(0)}
  {
  }

  lemma TwoNeighbors2Search0Scan(path: seq<NodeId>, visited: set<NodeId>)
    requires path == L0 && visited == {NodeId(0)}
    ensures Expand(path, L13, visited).0 == [Frame(NodeId(1), L01), Frame(NodeId(3), L03)]
    ensures Expand(path, L13, visited).1 == []
  {
    ScanOne(path, visited, [], NodeId(1), L1, L01, 0, [],
            [], [], [Frame(NodeId(1), L01)], []);
    ScanOne(path, visited, L1, NodeId(3), L13, L03, 0, [],
            [Frame(NodeId(1), L01)], [], [Frame(NodeId(1), L01), Frame(NodeId(3), L03)], []);
  }

  lemma TwoNeighbors2Search1(t: Graph)
    requires Neighbors(t, NodeId(3)) == L04
    requires ValidStack(t, [Frame(NodeId(1), L01), Frame(NodeId(3), L03)])
    ensures ValidStack(t, [Frame(NodeId(1), L01), Frame(NodeId(4), L034)])
    ensures Dfs(t, [Frame(NodeId(1), L01), Frame(NodeId(3), L03)], {NodeId(0)}, [])
         == Dfs(t, [Frame(NodeId(1), L01), Frame(NodeId(4), L034)], {NodeId(0), NodeId(3)}, [L03])
  {
    var path := L03;
    var visited := {NodeId(0), NodeId(3)};
    TwoNeighbors2Search1Scan(path, visited);
    TwoNeighbors2Search1Lists();
    SearchStep(t, [Frame(NodeId(1), L01), Frame(NodeId(3), L03)], {NodeId(0)}, [],
               Frame(NodeId(3), path), [Frame(NodeId(1), L01)], L04, visited,
               [Frame(NodeId(4), L034)], [L03], [Frame(NodeId(1), L01), Frame(NodeId(4), L034)], [L03]);
  }

  lemma TwoNeighbors2Search1Lists()
    ensures [Frame(NodeId(1), L01), Frame(NodeId(3), L03)] == [Frame(NodeId(1), L01)] + [Frame(NodeId(3), L03)]
    ensures [Frame(NodeId(1), L01), Frame(NodeId(4), L034)] == [Frame(NodeId(1), L01)] + [Frame(NodeId(4), L034)]
    ensures [L03] == [] + [L03]
    ensures {NodeId(0), NodeId(3)} == {NodeId(0)} + {NodeId(3)}
  {
  }

  lemma TwoNeighbors2Search1Scan(path: seq<NodeId>, visited: set<NodeId>)
    requires path == L03 && visited == {NodeId(0), NodeId(3)}
    ensures Expand(path, L04, visited).0 == [Frame(NodeId(4), L034)]
    ensures Expand(path, L04, visited).1 == [L03]
  {
    ScanOne(path, visited, [], NodeId(0), L0, [], 0, L03,
            [], [], [], [L03]);
    ScanOne(path, visited, L0, NodeId(4), L04, L034, 0, [],
            [], [L03], [Frame(NodeId(4), L034)], [L03]);
  }

  lemma TwoNeighbors2Search2(t: Graph)
    requires Neighbors(t, NodeId(4)) == L13
    requires ValidStack(t, [Frame(NodeId(1), L01), Frame(NodeId(4), L034)])
    ensures ValidStack(t, [Frame(NodeId(1), L01), Frame(NodeId(1), L0341)])
    ensures Dfs(t, [Frame(NodeId(1), L01), Frame(NodeId(4), L034)], {NodeId(0), NodeId(3)}, [L03])
         == Dfs(t, [Frame(NodeId(1), L01), Frame(NodeId(1), L0341)], {NodeId(0), NodeId(3), NodeId(4)}, [L03, L34])
  {
    var path := L034;
    var visited := {NodeId(0), NodeId(3), NodeId(4)};
    TwoNeighbors2Search2Scan(path, visited);
    TwoNeighbors2Search2Lists();
    SearchStep(t, [Frame(NodeId(1), L01), Frame(NodeId(4), L034)], {NodeId(0), NodeId(3)}, [L03],
               Frame(NodeId(4), path), [Frame(NodeId(1), L01)], L13, visited,
               [Frame(NodeId(1), L0341)], [L34], [Frame(NodeId(1), L01), Frame(NodeId(1), L0341)], [L03, L34]);
  }

  lemma TwoNeighbors2Search2Lists()
    ensures [Frame(NodeId(1), L01), Frame(NodeId(4), L034)] == [Frame(NodeId(1), L01)] + [Frame(NodeId(4), L034)]
    ensures [Frame(NodeId(1), L01), Frame(NodeId(1), L0341)] == [Frame(NodeId(1), L01)] + [Frame(NodeId(1), L0341)]
    ensures [L03, L34] == [L03] + [L34]
    ensures {NodeId(0), NodeId(3), NodeId(4)} == {NodeId(0), NodeId(3)} + {NodeId(4)}
  {
  }

  lemma TwoNeighbors2Search2Scan(path: seq<NodeId>, visited: set<NodeId>)
    requires path == L034 && visited == {NodeId(0), NodeId(3), NodeId(4)}
    ensures Expand(path, L13, visited).0 == [Frame(NodeId(1), L0341)]
    ensures Expand(path, L13, visited).1 == [L34]
  {
    ScanOne(path, visited, [], NodeId(1), L1, L0341, 0, [],
            [], [], [Frame(NodeId(1), L0341)], []);
    ScanOne(path, visited, L1, NodeId(3), L13, [], 1, L34,
            [Frame(NodeId(1), L0341)], [], [Frame(NodeId(1), L0341)], [L34]);
  }

  lemma TwoNeighbors2Search3(t: Graph)
    requires Neighbors(t, NodeId(1)) == L024
    requires ValidStack(t, [Frame(NodeId(1), L01), Frame(NodeId(1), L0341)])
    ensures ValidStack(t, [Frame(NodeId(1), L01), Frame(NodeId(2), L03412)])
    ensures Dfs(t, [Frame(NodeId(1), L01), Frame(NodeId(1), L0341)], {NodeId(0), NodeId(3), NodeId(4)}, [L03, L34])
         == Dfs(t, [Frame(NodeId(1), L01), Frame(NodeId(2), L03412)], {NodeId(0), NodeId(1), NodeId(3), NodeId(4)}, [L03, L34, L0341, L41])
  {
    var path := L0341;
    var visited := {NodeId(0), NodeId(1), NodeId(3), NodeId(4)};
    TwoNeighbors2Search3Scan(path, visited);
    TwoNeighbors2Search3Lists();
    SearchStep(t, [Frame(NodeId(1), L01), Frame(NodeId(1), L0341)], {NodeId(0), NodeId(3), NodeId(4)}, [L03, L34],
               Frame(NodeId(1), path), [Frame(NodeId(1), L01)], L024, visited,
               [Frame(NodeId(2), L03412)], [L0341, L41], [Frame(NodeId(1), L01), Frame(NodeId(2), L03412)], [L03, L34, L0341, L41]);
  }

  lemma TwoNeighbors2Search3Lists()
    ensures [Frame(NodeId(1), L01), Frame(NodeId(1), L0341)] == [Frame(NodeId(1), L01)] + [Frame(NodeId(1), L0341)]
    ensures [Frame(NodeId(1), L01), Frame(NodeId(2), L03412)] == [Frame(NodeId(1), L01)] + [Frame(NodeId(2), L03412)]
    ensures [L03, L34, L0341, L41] == [L03, L34] + [L0341, L41]
    ensures {NodeId(0), NodeId(1), NodeId(3), NodeId(4)} == {NodeId(0), NodeId(3), NodeId(4)} + {NodeId(1)}
  {
  }

  lemma TwoNeighbors2Search3Scan0(path: seq<NodeId>, visited: set<NodeId>)
    requires path == L0341 && visited == {NodeId(0), NodeId(1), NodeId(3), NodeId(4)}
    ensures Expand(path, L02, visited).0 == [Frame(NodeId(2), L03412)]
    ensures Expand(path, L02, visited).1 == [L0341]
  {
    ScanOne(path, visited, [], NodeId(0), L0, [], 0, L0341,
            [], [], [], [L0341]);
    ScanOne(path, visited, L0, NodeId(2), L02, L03412, 0, [],
            [], [L0341], [Frame(NodeId(2), L03412)], [L0341]);
  }

  lemma TwoNeighbors2Search3Scan(path: seq<NodeId>, visited: set<NodeId>)
    requires path == L0341 && visited == {NodeId(0), NodeId(1), NodeId(3), NodeId(4)}
    ensures Expand(path, L024, visited).0 == [Frame(NodeId(2), L03412)]
    ensures Expand(path, L024, visited).1 == [L0341, L41]
  {
    TwoNeighbors2Search3Scan0(path, visited);
    ScanOne(path, visited, L02, NodeId(4), L024, [], 2, L41,
            [Frame(NodeId(2), L03412)], [L0341], [Frame(NodeId(2), L03412)], [L0341, L41]);
  }

  lemma TwoNeighbors2Search4(t: Graph)
    requires Neighbors(t, NodeId(2)) == L1
    requires ValidStack(t, [Frame(NodeId(1), L01), Frame(NodeId(2), L03412)])
    ensures ValidStack(t, [Frame(NodeId(1), L01)])
    ensures Dfs(t, [Frame(NodeId(1), L01), Frame(NodeId(2), L03412)], {NodeId(0), NodeId(1), NodeId(3), NodeId(4)}, [L03, L34, L0341, L41])
         == Dfs(t, [Frame(NodeId(1), L01)], {NodeId(0), NodeId(1), NodeId(2), NodeId(3), NodeId(4)}, [L03, L34, L0341, L41, L12])
  {
    var path := L03412;
    var visited := {NodeId(0), NodeId(1), NodeId(2), NodeId(3), NodeId(4)};
    TwoNeighbors2Search4Scan(path, visited);
    TwoNeighbors2Search4Lists();
    SearchStep(t, [Frame(NodeId(1), L01), Frame(NodeId(2), L03412)], {NodeId(0), NodeId(1), NodeId(3), NodeId(4)}, [L03, L34, L0341, L41],
               Frame(NodeId(2), path), [Frame(NodeId(1), L01)], L1, visited,
               [], [L12], [Frame(NodeId(1), L01)], [L03, L34, L0341, L41, L12]);
  }

  lemma TwoNeighbors2Search4Lists()
    ensures [Frame(NodeId(1), L01), Frame(NodeId(2), L03412)] == [Frame(NodeId(1), L01)] + [Frame(NodeId(2), L03412)]
    ensures [Frame(NodeId(1), L01)] == [Frame(NodeId(1), L01)] + []
    ensures [L03, L34, L0341, L41, L12] == [L03, L34, L0341, L41] + [L12]
    ensures {NodeId(0), NodeId(1), NodeId(2), NodeId(3), NodeId(4)} == {NodeId(0), NodeId(1), NodeId(3), NodeId(4)} + {NodeId(2)}
  {
  }

  lemma TwoNeighbors2Search4Scan(path: seq<NodeId>, visited: set<NodeId>)
    requires path == L03412 && visited == {NodeId(0), NodeId(1), NodeId(2), NodeId(3), NodeId(4)}
    ensures Expand(path, L1, visited).0 == []
    ensures Expand(path, L1, visited).1 == [L12]
  {
    ScanOne(path, visited, [], NodeId(1), L1, [], 3, L12,
            [], [], [], [L12]);
  }

  lemma TwoNeighbors2Search5(t: Graph)
    requires Neighbors(t, NodeId(1)) == L024
    requires ValidStack(t, [Frame(NodeId(1), L01)])
    ensures ValidStack(t, [])
    ensures Dfs(t, [Frame(NodeId(1), L01)], {NodeId(0), NodeId(1), NodeId(2), NodeId(3), NodeId(4)}, [L03, L34, L0341, L41, L12])
         == Dfs(t, [], {NodeId(0), NodeId(1), NodeId(2), NodeId(3), NodeId(4)}, [L03, L34, L0341, L41, L12, L01])
  {
    var path := L01;
    var visited := {NodeId(0), NodeId(1), NodeId(2), NodeId(3), NodeId(4)};
    TwoNeighbors2Search5Scan(path, visited);
    TwoNeighbors2Search5Lists();
    SearchStep(t, [Frame(NodeId(1), L01)], {NodeId(0), NodeId(1), NodeId(2), NodeId(3), NodeId(4)}, [L03, L34, L0341, L41, L12],
               Frame(NodeId(1), path), [], L024, visited,
               [], [L01], [], [L03, L34, L0341, L41, L12, L01]);
  }

  lemma TwoNeighbors2Search5Lists()
    ensures [Frame(NodeId(1), L01)] == [] + [Frame(NodeId(1), L01)]
    ensures [L03, L34, L0341, L41, L12, L01] == [L03, L34, L0341, L41, L12] + [L01]
    ensures {NodeId(0), NodeId(1), NodeId(2), NodeId(3), NodeId(4)} == {NodeId(0), NodeId(1), NodeId(2), NodeId(3), NodeId(4)} + {NodeId(1)}
  {
  }

  lemma TwoNeighbors2Search5Scan0(path: seq<NodeId>, visited: set<NodeId>)
    requires path == L01 && visited == {NodeId(0), NodeId(1), NodeId(2), NodeId(3), NodeId(4)}
    ensures Expand(path, L02, visited).0 == []
    ensures Expand(path, L02, visited).1 == [L01]
  {
    ScanOne(path, visited, [], NodeId(0), L0, [], 0, L01,
            [], [], [], [L01]);
    ScanOne(path, visited, L0, NodeId(2), L02, [], 0, [],
            [], [L01], [], [L01]);
  }

  lemma TwoNeighbors2Search5Scan(path: seq<NodeId>, visited: set<NodeId>)
    requires path == L01 && visited == {NodeId(0), NodeId(1), NodeId(2), NodeId(3), NodeId(4)}
    ensures Expand(path, L024, visited).0 == []
    ensures Expand(path, L024, visited).1 == [L01]
  {
    TwoNeighbors2Search5Scan0(path, visited);
    ScanOne(path, visited, L02, NodeId(4), L024, [], 0, [],
            [], [L01], [], [L01]);
  }

  /** The search on a topology with the lists of `TwoNeighbors2Graph`, starting from NodeId(0). */
  lemma TwoNeighbors2Search(t: Graph)
    requires t.Keys == {NodeId(0), NodeId(1), NodeId(2), NodeId(3), NodeId(4)}
    requires t[NodeId(0)] == L13
    requires t[NodeId(1)] == L024
    requires t[NodeId(2)] == L1
    requires t[NodeId(3)] == L04
    requires t[NodeId(4)] == L13
    ensures t != map[]
    ensures SearchCycles(t) == [L03, L34, L0341, L41, L12, L01]
  {
    assert NodeId(0) in t.Keys;
    MinKeyUnique(t, NodeId(0));
    StartFrameValid(t, NodeId(0));
    TwoNeighbors2Search0(t);
    TwoNeighbors2Search1(t);
    TwoNeighbors2Search2(t);
    TwoNeighbors2Search3(t);
    TwoNeighbors2Search4(t);
    TwoNeighbors2Search5(t);
  }

  /** Pruning the cycles found on `TwoNeighbors2Graph`. */
  lemma TwoNeighbors2Prune0(original: seq<seq<NodeId>>)
    requires |original| > 0 && original[0] == L03
    ensures PruneFrom(original, 0, [L03, L34, L0341, L41, L12, L01]) == PruneFrom(original, 1, [L34, L0341, L41, L12, L01])
  {
    var current := [L03, L34, L0341, L41, L12, L01];
    var x := L03;
    TwoNeighbors2Prune0Test(current, x);
    TwoNeighbors2Prune0Without(current, x);
    PruneStep(original, 0, x, current, [L34, L0341, L41, L12, L01]);
  }

  lemma TwoNeighbors2Prune0Test(current: seq<seq<NodeId>>, x: seq<NodeId>)
    requires current == [L03, L34, L0341, L41, L12, L01] && x == L03
    ensures ContainedElsewhere(current, x)
  {
    ContainedAt(current, x, 2, L0341);
  }

  lemma TwoNeighbors2Prune0Without(current: seq<seq<NodeId>>, x: seq<NodeId>)
    requires current == [L03, L34, L0341, L41, L12, L01] && x == L03
    ensures Without(current, x) == [L34, L0341, L41, L12, L01]
  {
    forall j | 0 <= j < |current| && j != 0 ensures current[j] != x {
      if j == 1 {
        assert current[j][0] != x[0];
      } else if j == 2 {
        assert |current[j]| != |x|;
      } else if j == 3 {
        assert current[j][0] != x[0];
      } else if j == 4 {
        assert current[j][0] != x[0];
      } else {
        assert current[j][1] != x[1];
      }
    }
    WithoutOne(current, x, 0);
  }

  lemma TwoNeighbors2Prune1(original: seq<seq<NodeId>>)
    requires |original| > 1 && original[1] == L34
    ensures PruneFrom(original, 1, [L34, L0341, L41, L12, L01]) == PruneFrom(original, 2, [L0341, L41, L12, L01])
  {
    var current := [L34, L0341, L41, L12, L01];
    var x := L34;
    TwoNeighbors2Prune1Test(current, x);
    TwoNeighbors2Prune1Without(current, x);
    PruneStep(original, 1, x, current, [L0341, L41, L12, L01]);
  }

  lemma TwoNeighbors2Prune1Test(current: seq<seq<NodeId>>, x: seq<NodeId>)
    requires current == [L34, L0341, L41, L12, L01] && x == L34
    ensures ContainedElsewhere(current, x)
  {
    ContainedAt(current, x, 1, L0341);
  }

  lemma TwoNeighbors2Prune1Without(current: seq<seq<NodeId>>, x: seq<NodeId>)
    requires current == [L34, L0341, L41, L12, L01] && x == L34
    ensures Without(current, x) == [L0341, L41, L12, L01]
  {
    forall j | 0 <= j < |current| && j != 0 ensures current[j] != x {
      if j == 1 {
        assert |current[j]| != |x|;
      } else if j == 2 {
        assert current[j][0] != x[0];
      } else if j == 3 {
        assert current[j][0] != x[0];
      } else {
        assert current[j][0] != x[0];
      }
    }
    WithoutOne(current, x, 0);
  }

  lemma TwoNeighbors2Prune2(original: seq<seq<NodeId>>)
    requires |original| > 2 && original[2] == L0341
    ensures PruneFrom(original, 2, [L0341, L41, L12, L01]) == PruneFrom(original, 3, [L0341, L41, L12, L01])
  {
    var current := [L0341, L41, L12, L01];
    var x := L0341;
    TwoNeighbors2Prune2Test(current, x);
    PruneStep(original, 2, x, current, [L0341, L41, L12, L01]);
  }

  lemma TwoNeighbors2Prune2Test(current: seq<seq<NodeId>>, x: seq<NodeId>)
    requires current == [L0341, L41, L12, L01] && x == L0341
    ensures !ContainedElsewhere(current, x)
  {
    NoneContainsSelf(current, x, 0);
    NoneContainsNext(current, x, 1, NodeId(0));
    NoneContainsNext(current, x, 2, NodeId(0));
    NoneContainsNext(current, x, 3, NodeId(3));
    NotContained(current, x);
  }

  lemma TwoNeighbors2Prune3(original: seq<seq<NodeId>>)
    requires |original| > 3 && original[3] == L41
    ensures PruneFrom(original, 3, [L0341, L41, L12, L01]) == PruneFrom(original, 4, [L0341, L12, L01])
  {
    var current := [L0341, L41, L12, L01];
    var x := L41;
    TwoNeighbors2Prune3Test(current, x);
    TwoNeighbors2Prune3Without(current, x);
    PruneStep(original, 3, x, current, [L0341, L12, L01]);
  }

  lemma TwoNeighbors2Prune3Test(current: seq<seq<NodeId>>, x: seq<NodeId>)
    requires current == [L0341, L41, L12, L01] && x == L41
    ensures ContainedElsewhere(current, x)
  {
    ContainedAt(current, x, 0, L0341);
  }

  lemma TwoNeighbors2Prune3Without(current: seq<seq<NodeId>>, x: seq<NodeId>)
    requires current == [L0341, L41, L12, L01] && x == L41
    ensures Without(current, x) == [L0341, L12, L01]
  {
    forall j | 0 <= j < |current| && j != 1 ensures current[j] != x {
      if j == 0 {
        assert |current[j]| != |x|;
      } else if j == 2 {
        assert current[j][0] != x[0];
      } else {
        assert current[j][0] != x[0];
      }
    }
    WithoutOne(current, x, 1);
  }

  lemma TwoNeighbors2Prune4(original: seq<seq<NodeId>>)
    requires |original| > 4 && original[4] == L12
    ensures PruneFrom(original, 4, [L0341, L12, L01]) == PruneFrom(original, 5, [L0341, L12, L01])
  {
    var current := [L0341, L12, L01];
    var x := L12;
    TwoNeighbors2Prune4Test(current, x);
    PruneStep(original, 4, x, current, [L0341, L12, L01]);
  }

  lemma TwoNeighbors2Prune4Test(current: seq<seq<NodeId>>, x: seq<NodeId>)
    requires current == [L0341, L12, L01] && x == L12
    ensures !ContainedElsewhere(current, x)
  {
    NoneContainsNext(current, x, 0, NodeId(2));
    NoneContainsSelf(current, x, 1);
    NoneContainsNext(current, x, 2, NodeId(2));
    NotContained(current, x);
  }

  lemma TwoNeighbors2Prune5(original: seq<seq<NodeId>>)
    requires |original| > 5 && original[5] == L01
    ensures PruneFrom(original, 5, [L0341, L12, L01]) == PruneFrom(original, 6, [L0341, L12])
  {
    var current := [L0341, L12, L01];
    var x := L01;
    TwoNeighbors2Prune5Test(current, x);
    TwoNeighbors2Prune5Without(current, x);
    PruneStep(original, 5, x, current, [L0341, L12]);
  }

  lemma TwoNeighbors2Prune5Test(current: seq<seq<NodeId>>, x: seq<NodeId>)
    requires current == [L0341, L12, L01] && x == L01
    ensures ContainedElsewhere(current, x)
  {
    ContainedAt(current, x, 0, L0341);
  }

  lemma TwoNeighbors2Prune5Without(current: seq<seq<NodeId>>, x: seq<NodeId>)
    requires current == [L0341, L12, L01] && x == L01
    ensures Without(current, x) == [L0341, L12]
  {
    forall j | 0 <= j < |current| && j != 2 ensures current[j] != x {
      if j == 0 {
        assert |current[j]| != |x|;
      } else {
        assert current[j][0] != x[0];
      }
    }
    WithoutOne(current, x, 2);
  }

  lemma TwoNeighbors2PruneFrom5(original: seq<seq<NodeId>>)
    requires original == [L03, L34, L0341, L41, L12, L01]
    ensures PruneFrom(original, 5, [L0341, L12, L01]) == [L0341, L12]
  {
    TwoNeighbors2Prune5(original);
  }

  lemma TwoNeighbors2PruneFrom4(original: seq<seq<NodeId>>)
    requires original == [L03, L34, L0341, L41, L12, L01]
    ensures PruneFrom(original, 4, [L0341, L12, L01]) == [L0341, L12]
  {
    TwoNeighbors2Prune4(original);
    TwoNeighbors2PruneFrom5(original);
  }

  lemma TwoNeighbors2PruneFrom3(original: seq<seq<NodeId>>)
    requires original == [L03, L34, L0341, L41, L12, L01]
    ensures PruneFrom(original, 3, [L0341, L41, L12, L01]) == [L0341, L12]
  {
    TwoNeighbors2Prune3(original);
    TwoNeighbors2PruneFrom4(original);
  }

  lemma TwoNeighbors2PruneFrom2(original: seq<seq<NodeId>>)
    requires original == [L03, L34, L0341, L41, L12, L01]
    ensures PruneFrom(original, 2, [L0341, L41, L12, L01]) == [L0341, L12]
  {
    TwoNeighbors2Prune2(original);
    TwoNeighbors2PruneFrom3(original);
  }

  lemma TwoNeighbors2PruneFrom1(original: seq<seq<NodeId>>)
    requires original == [L03, L34, L0341, L41, L12, L01]
    ensures PruneFrom(original, 1, [L34, L0341, L41, L12, L01]) == [L0341, L12]
  {
    TwoNeighbors2Prune1(original);
    TwoNeighbors2PruneFrom2(original);
  }

  lemma TwoNeighbors2PruneFrom0(original: seq<seq<NodeId>>)
    requires original == [L03, L34, L0341, L41, L12, L01]
    ensures PruneFrom(original, 0, [L03, L34, L0341, L41, L12, L01]) == [L0341, L12]
  {
    TwoNeighbors2Prune0(original);
    TwoNeighbors2PruneFrom1(original);
  }

  lemma TwoNeighbors2Prune(original: seq<seq<NodeId>>)
    requires original == [L03, L34, L0341, L41, L12, L01]
    ensures Pruned(original) == [L0341, L12]
  {
    TwoNeighbors2PruneFrom0(original);
  }

  lemma TwoNeighbors2Select0(cycles: seq<seq<NodeId>>, n: NodeId)
    requires cycles == [L0341, L12] && n == NodeId(0)
    ensures Dedup(Successors(cycles, n)) == L3
  {
    SuccessorAt(L0341, n, 0, NodeId(3));
    SuccessorAbsent(L12, n);
    SuccessorsTwo(L0341, L12, n);
    DedupOne(NodeId(3));
  }

  lemma TwoNeighbors2Select1(cycles: seq<seq<NodeId>>, n: NodeId)
    requires cycles == [L0341, L12] && n == NodeId(1)
    ensures Dedup(Successors(cycles, n)) == L02
  {
    SuccessorAt(L0341, n, 3, NodeId(0));
    SuccessorAt(L12, n, 0, NodeId(2));
    SuccessorsTwo(L0341, L12, n);
    DedupTwo(NodeId(0), NodeId(2));
  }

  lemma TwoNeighbors2Select2(cycles: seq<seq<NodeId>>, n: NodeId)
    requires cycles == [L0341, L12] && n == NodeId(2)
    ensures Dedup(Successors(cycles, n)) == L1
  {
    SuccessorAbsent(L0341, n);
    SuccessorAt(L12, n, 1, NodeId(1));
    SuccessorsTwo(L0341, L12, n);
    DedupOne(NodeId(1));
  }

  lemma TwoNeighbors2Select3(cycles: seq<seq<NodeId>>, n: NodeId)
    requires cycles == [L0341, L12] && n == NodeId(3)
    ensures Dedup(Successors(cycles, n)) == L4
  {
    SuccessorAt(L0341, n, 1, NodeId(4));
    SuccessorAbsent(L12, n);
    SuccessorsTwo(L0341, L12, n);
    DedupOne(NodeId(4));
  }

  lemma TwoNeighbors2Select4(cycles: seq<seq<NodeId>>, n: NodeId)
    requires cycles == [L0341, L12] && n == NodeId(4)
    ensures Dedup(Successors(cycles, n)) == L1
  {
    SuccessorAt(L0341, n, 2, NodeId(1));
    SuccessorAbsent(L12, n);
    SuccessorsTwo(L0341, L12, n);
    DedupOne(NodeId(1));
  }

  /** Every list of `TwoNeighbors2Graph` is already sorted. */
  lemma TwoNeighbors2Sorted()
    ensures forall k | k in TwoNeighbors2Graph :: Sorted(TwoNeighbors2Graph[k])
  {
    assert Sorted(L024);
    assert Sorted(L04);
    assert Sorted(L1);
    assert Sorted(L13);
    assert TwoNeighbors2Graph.Keys == {NodeId(0), NodeId(1), NodeId(2), NodeId(3), NodeId(4)};
    assert TwoNeighbors2Graph[NodeId(0)] == L13 && TwoNeighbors2Graph[NodeId(1)] == L024 && TwoNeighbors2Graph[NodeId(2)] == L1 && TwoNeighbors2Graph[NodeId(3)] == L04 && TwoNeighbors2Graph[NodeId(4)] == L13;
  }

  /** So the topology `from` builds on `TwoNeighbors2Graph` is `TwoNeighbors2Graph` itself. */
  lemma TwoNeighbors2From(t: Graph)
    requires t.Keys == TwoNeighbors2Graph.Keys && forall k | k in t :: t[k] == Sort(TwoNeighbors2Graph[k])
    ensures t == TwoNeighbors2Graph
  {
    TwoNeighbors2Sorted();
    FromKeepsSorted(TwoNeighbors2Graph, t);
  }

  lemma TwoNeighbors2Lists(t: Graph)
    requires t == TwoNeighbors2Graph
    ensures t.Keys == {NodeId(0), NodeId(1), NodeId(2), NodeId(3), NodeId(4)}
    ensures t[NodeId(0)] == L13
    ensures t[NodeId(1)] == L024
    ensures t[NodeId(2)] == L1
    ensures t[NodeId(3)] == L04
    ensures t[NodeId(4)] == L13
  {
  }

  /** `two_neighbors_2`: what `next` returns for each node of the topology built from `TwoNeighbors2Graph`. */
  lemma TwoNeighbors2(t: Graph)
    requires t.Keys == TwoNeighbors2Graph.Keys && forall k | k in t :: t[k] == Sort(TwoNeighbors2Graph[k])
    ensures NextSpec(t, NodeId(0)) == L3
    ensures NextSpec(t, NodeId(1)) == L02
    ensures NextSpec(t, NodeId(2)) == L1
    ensures NextSpec(t, NodeId(3)) == L4
    ensures NextSpec(t, NodeId(4)) == L1
  {
    TwoNeighbors2From(t);
    TwoNeighbors2Lists(t);
    TwoNeighbors2Search(t);
    TwoNeighbors2Prune(SearchCycles(t));
    TwoNeighbors2Select0([L0341, L12], NodeId(0));
    NextFromPruned(t, [L0341, L12], NodeId(0));
    TwoNeighbors2Select1([L0341, L12], NodeId(1));
    NextFromPruned(t, [L0341, L12], NodeId(1));
    TwoNeighbors2Select2([L0341, L12], NodeId(2));
    NextFromPruned(t, [L0341, L12], NodeId(2));
    TwoNeighbors2Select3([L0341, L12], NodeId(3));
    NextFromPruned(t, [L0341, L12], NodeId(3));
    TwoNeighbors2Select4([L0341, L12], NodeId(4));
    NextFromPruned(t, [L0341, L12], NodeId(4));
  }

  /** The `three_neighbors` test graph: the 2x3 grid. */
  const ThreeNeighborsGraph: Graph := map[NodeId(1) := L24, NodeId(2) := L135, NodeId(3) := L26, NodeId(4) := L15, NodeId(5) := L246, NodeId(6) := L35]

  lemma ThreeNeighborsSearch0(t: Graph)
    requires Neighbors(t, NodeId(1)) == L24
    requires ValidStack(t, [Frame(NodeId(1), L1)])
    ensures ValidStack(t, [Frame(NodeId(2), L12), Frame(NodeId(4), L14)])
    ensures Dfs(t, [Frame(NodeId(1), L1)], {}, [])
         == Dfs(t, [Frame(NodeId(2), L12), Frame(NodeId(4), L14)], {NodeId(1)}, [])
  {
    var path := L1;
    var visited := {NodeId(1)};
    ThreeNeighborsSearch0Scan(path, visited);
    ThreeNeighborsSearch0Lists();
    SearchStep(t, [Frame(NodeId(1), L1)], {}, [],
               Frame(NodeId(1), path), [], L24, visited,
               [Frame(NodeId(2), L12), Frame(NodeId(4), L14)], [], [Frame(NodeId(2), L12), Frame(NodeId(4), L14)], []);
  }

  lemma ThreeNeighborsSearch0Lists()
    ensures [Frame(NodeId(1), L1)] == [] + [Frame(NodeId(1), L1)]
    ensures [Frame(NodeId(2), L12), Frame(NodeId(4), L14)] == [] + [Frame(NodeId(2), L12), Frame(NodeId(4), L14)]
    ensures {NodeId(1)} == {} + {NodeId(1)}
  {
  }

  lemma ThreeNeighborsSearch0Scan(path: seq<NodeId>, visited: set<NodeId>)
    requires path == L1 && visited == {NodeId(1)}
    ensures Expand(path, L24, visited).0 == [Frame(NodeId(2), L12), Frame(NodeId(4), L14)]
    ensures Expand(path, L24, visited).1 == []
  {
    ScanOne(path, visited, [], NodeId(2), L2, L12, 0, [],
            [], [], [Frame(NodeId(2), L12)], []);
    ScanOne(path, visited, L2, NodeId(4), L24, L14, 0, [],
            [Frame(NodeId(2), L12)], [], [Frame(NodeId(2), L12), Frame(NodeId(4), L14)], []);
  }

  lemma ThreeNeighborsSearch1(t: Graph)
    requires Neighbors(t, NodeId(4)) == L15
    requires ValidStack(t, [Frame(NodeId(2), L12), Frame(NodeId(4), L14)])
    ensures ValidStack(t, [Frame(NodeId(2), L12), Frame(NodeId(5), L145)])
    ensures Dfs(t, [Frame(NodeId(2), L12), Frame(NodeId(4), L14)], {NodeId(1)}, [])
         == Dfs(t, [Frame(NodeId(2), L12), Frame(NodeId(5), L145)], {NodeId(1), NodeId(4)}, [L14])
  {
    var path := L14;
    var visited := {NodeId(1), NodeId(4)};
    ThreeNeighborsSearch1Scan(path, visited);
    ThreeNeighborsSearch1Lists();
    SearchStep(t, [Frame(NodeId(2), L12), Frame(NodeId(4), L14)], {NodeId(1)}, [],
               Frame(NodeId(4), path), [Frame(NodeId(2), L12)], L15, visited,
               [Frame(NodeId(5), L145)], [L14], [Frame(NodeId(2), L12), Frame(NodeId(5), L145)], [L14]);
  }

  lemma ThreeNeighborsSearch1Lists()
    ensures [Frame(NodeId(2), L12), Frame(NodeId(4), L14)] == [Frame(NodeId(2), L12)] + [Frame(NodeId(4), L14)]
    ensures [Frame(NodeId(2), L12), Frame(NodeId(5), L145)] == [Frame(NodeId(2), L12)] + [Frame(NodeId(5), L145)]
    ensures [L14] == [] + [L14]
    ensures {NodeId(1), NodeId(4)} == {NodeId(1)} + {NodeId(4)}
  {
  }

  lemma ThreeNeighborsSearch1Scan(path: seq<NodeId>, visited: set<NodeId>)
    requires path == L14 && visited == {NodeId(1), NodeId(4)}
    ensures Expand(path, L15, visited).0 == [Frame(NodeId(5), L145)]
    ensures Expand(path, L15, visited).1 == [L14]
  {
    ScanOne(path, visited, [], NodeId(1), L1, [], 0, L14,
            [], [], [], [L14]);
    ScanOne(path, visited, L1, NodeId(5), L15, L145, 0, [],
            [], [L14], [Frame(NodeId(5), L145)], [L14]);
  }

  lemma ThreeNeighborsSearch2(t: Graph)
    requires Neighbors(t, NodeId(5)) == L246
    requires ValidStack(t, [Frame(NodeId(2), L12), Frame(NodeId(5), L145)])
    ensures ValidStack(t, [Frame(NodeId(2), L12), Frame(NodeId(2), L1452), Frame(NodeId(6), L1456)])
    ensures Dfs(t, [Frame(NodeId(2), L12), Frame(NodeId(5), L145)], {NodeId(1), NodeId(4)}, [L14])
         == Dfs(t, [Frame(NodeId(2), L12), Frame(NodeId(2), L1452), Frame(NodeId(6), L1456)], {NodeId(1), NodeId(4), NodeId(5)}, [L14, L45])
  {
    var path := L145;
    var visited := {NodeId(1), NodeId(4), NodeId(5)};
    ThreeNeighborsSearch2Scan(path, visited);
    ThreeNeighborsSearch2Lists();
    SearchStep(t, [Frame(NodeId(2), L12), Frame(NodeId(5), L145)], {NodeId(1), NodeId(4)}, [L14],
               Frame(NodeId(5), path), [Frame(NodeId(2), L12)], L246, visited,
               [Frame(NodeId(2), L1452), Frame(NodeId(6), L1456)], [L45], [Frame(NodeId(2), L12), Frame(NodeId(2), L1452), Frame(NodeId(6), L1456)], [L14, L45]);
  }

  lemma ThreeNeighborsSearch2Lists()
    ensures [Frame(NodeId(2), L12), Frame(NodeId(5), L145)] == [Frame(NodeId(2), L12)] + [Frame(NodeId(5), L145)]
    ensures [Frame(NodeId(2), L12), Frame(NodeId(2), L1452), Frame(NodeId(6), L1456)] == [Frame(NodeId(2), L12)] + [Frame(NodeId(2), L1452), Frame(NodeId(6), L1456)]
    ensures [L14, L45] == [L14] + [L45]
    ensures {NodeId(1), NodeId(4), NodeId(5)} == {NodeId(1), NodeId(4)} + {NodeId(5)}
  {
  }

  lemma ThreeNeighborsSearch2Scan0(path: seq<NodeId>, visited: set<NodeId>)
    requires path == L145 && visited == {NodeId(1), NodeId(4), NodeId(5)}
    ensures Expand(path, L24, visited).0 == [Frame(NodeId(2), L1452)]
    ensures Expand(path, L24, visited).1 == [L45]
  {
    ScanOne(path, visited, [], NodeId(2), L2, L1452, 0, [],
            [], [], [Frame(NodeId(2), L1452)], []);
    ScanOne(path, visited, L2, NodeId(4), L24, [], 1, L45,
            [Frame(NodeId(2), L1452)], [], [Frame(NodeId(2), L1452)], [L45]);
  }

  lemma ThreeNeighborsSearch2Scan(path: seq<NodeId>, visited: set<NodeId>)
    requires path == L145 && visited == {NodeId(1), NodeId(4), NodeId(5)}
    ensures Expand(path, L246, visited).0 == [Frame(NodeId(2), L1452), Frame(NodeId(6), L1456)]
    ensures Expand(path, L246, visited).1 == [L45]
  {
    ThreeNeighborsSearch2Scan0(path, visited);
    ScanOne(path, visited, L24, NodeId(6), L246, L1456, 0, [],
            [Frame(NodeId(2), L1452)], [L45], [Frame(NodeId(2), L1452), Frame(NodeId(6), L1456)], [L45]);
  }

  lemma ThreeNeighborsSearch3(t: Graph)
    requires Neighbors(t, NodeId(6)) == L35
    requires ValidStack(t, [Frame(NodeId(2), L12), Frame(NodeId(2), L1452), Frame(NodeId(6), L1456)])
    ensures ValidStack(t, [Frame(NodeId(2), L12), Frame(NodeId(2), L1452), Frame(NodeId(3), L14563)])
    ensures Dfs(t, [Frame(NodeId(2), L12), Frame(NodeId(2), L1452), Frame(NodeId(6), L1456)], {NodeId(1), NodeId(4), NodeId(5)}, [L14, L45])
         == Dfs(t, [Frame(NodeId(2), L12), Frame(NodeId(2), L1452), Frame(NodeId(3), L14563)], {NodeId(1), NodeId(4), NodeId(5), NodeId(6)}, [L14, L45, L56])
  {
    var path := L1456;
    var visited := {NodeId(1), NodeId(4), NodeId(5), NodeId(6)};
    ThreeNeighborsSearch3Scan(path, visited);
    ThreeNeighborsSearch3Lists();
    SearchStep(t, [Frame(NodeId(2), L12), Frame(NodeId(2), L1452), Frame(NodeId(6), L1456)], {NodeId(1), NodeId(4), NodeId(5)}, [L14, L45],
               Frame(NodeId(6), path), [Frame(NodeId(2), L12), Frame(NodeId(2), L1452)], L35, visited,
               [Frame(NodeId(3), L14563)], [L56], [Frame(NodeId(2), L12), Frame(NodeId(2), L1452), Frame(NodeId(3), L14563)], [L14, L45, L56]);
  }

  lemma ThreeNeighborsSearch3Lists()
    ensures [Frame(NodeId(2), L12), Frame(NodeId(2), L1452), Frame(NodeId(6), L1456)] == [Frame(NodeId(2), L12), Frame(NodeId(2), L1452)] + [Frame(NodeId(6), L1456)]
    ensures [Frame(NodeId(2), L12), Frame(NodeId(2), L1452), Frame(NodeId(3), L14563)] == [Frame(NodeId(2), L12), Frame(NodeId(2), L1452)] + [Frame(NodeId(3), L14563)]
    ensures [L14, L45, L56] == [L14, L45] + [L56]
    ensures {NodeId(1), NodeId(4), NodeId(5), NodeId(6)} == {NodeId(1), NodeId(4), NodeId(5)} + {NodeId(6)}
  {
  }

  lemma ThreeNeighborsSearch3Scan(path: seq<NodeId>, visited: set<NodeId>)
    requires path == L1456 && visited == {NodeId(1), NodeId(4), NodeId(5), NodeId(6)}
    ensures Expand(path, L35, visited).0 == [Frame(NodeId(3), L14563)]
    ensures Expand(path, L35, visited).1 == [L56]
  {
    ScanOne(path, visited, [], NodeId(3), L3, L14563, 0, [],
            [], [], [Frame(NodeId(3), L14563)], []);
    ScanOne(path, visited, L3, NodeId(5), L35, [], 2, L56,
            [Frame(NodeId(3), L14563)], [], [Frame(NodeId(3), L14563)], [L56]);
  }

  lemma ThreeNeighborsSearch4(t: Graph)
    requires Neighbors(t, NodeId(3)) == L26
    requires ValidStack(t, [Frame(NodeId(2), L12), Frame(NodeId(2), L1452), Frame(NodeId(3), L14563)])
    ensures ValidStack(t, [Frame(NodeId(2), L12), Frame(NodeId(2), L1452), Frame(NodeId(2), L145632)])
    ensures Dfs(t, [Frame(NodeId(2), L12), Frame(NodeId(2), L1452), Frame(NodeId(3), L14563)], {NodeId(1), NodeId(4), NodeId(5), NodeId(6)}, [L14, L45, L56])
         == Dfs(t, [Frame(NodeId(2), L12), Frame(NodeId(2), L1452), Frame(NodeId(2), L145632)], {NodeId(1), NodeId(3), NodeId(4), NodeId(5), NodeId(6)}, [L14, L45, L56, L63])
  {
    var path := L14563;
    var visited := {NodeId(1), NodeId(3), NodeId(4), NodeId(5), NodeId(6)};
    ThreeNeighborsSearch4Scan(path, visited);
    ThreeNeighborsSearch4Lists();
    SearchStep(t, [Frame(NodeId(2), L12), Frame(NodeId(2), L1452), Frame(NodeId(3), L14563)], {NodeId(1), NodeId(4), NodeId(5), NodeId(6)}, [L14, L45, L56],
               Frame(NodeId(3), path), [Frame(NodeId(2), L12), Frame(NodeId(2), L1452)], L26, visited,
               [Frame(NodeId(2), L145632)], [L63], [Frame(NodeId(2), L12), Frame(NodeId(2), L1452), Frame(NodeId(2), L145632)], [L14, L45, L56, L63]);
  }

  lemma ThreeNeighborsSearch4Lists()
    ensures [Frame(NodeId(2), L12), Frame(NodeId(2), L1452), Frame(NodeId(3), L14563)] == [Frame(NodeId(2), L12), Frame(NodeId(2), L1452)] + [Frame(NodeId(3), L14563)]
    ensures [Frame(NodeId(2), L12), Frame(NodeId(2), L1452), Frame(NodeId(2), L145632)] == [Frame(NodeId(2), L12), Frame(NodeId(2), L1452)] + [Frame(NodeId(2), L145632)]
    ensures [L14, L45, L56, L63] == [L14, L45, L56] + [L63]
    ensures {NodeId(1), NodeId(3), NodeId(4), NodeId(5), NodeId(6)} == {NodeId(1), NodeId(4), NodeId(5), NodeId(6)} + {NodeId(3)}
  {
  }

  lemma ThreeNeighborsSearch4Scan(path: seq<NodeId>, visited: set<NodeId>)
    requires path == L14563 && visited == {NodeId(1), NodeId(3), NodeId(4), NodeId(5), NodeId(6)}
    ensures Expand(path, L26, visited).0 == [Frame(NodeId(2), L145632)]
    ensures Expand(path, L26, visited).1 == [L63]
  {
    ScanOne(path, visited, [], NodeId(2), L2, L145632, 0, [],
            [], [], [Frame(NodeId(2), L145632)], []);
    ScanOne(path, visited, L2, NodeId(6), L26, [], 3, L63,
            [Frame(NodeId(2), L145632)], [], [Frame(NodeId(2), L145632)], [L63]);
  }

  lemma ThreeNeighborsSearch5(t: Graph)
    requires Neighbors(t, NodeId(2)) == L135
    requires ValidStack(t, [Frame(NodeId(2), L12), Frame(NodeId(2), L1452), Frame(NodeId(2), L145632)])
    ensures ValidStack(t, [Frame(NodeId(2), L12), Frame(NodeId(2), L1452)])
    ensures Dfs(t, [Frame(NodeId(2), L12), Frame(NodeId(2), L1452), Frame(NodeId(2), L145632)], {NodeId(1), NodeId(3), NodeId(4), NodeId(5), NodeId(6)}, [L14, L45, L56, L63])
         == Dfs(t, [Frame(NodeId(2), L12), Frame(NodeId(2), L1452)], {NodeId(1), NodeId(2), NodeId(3), NodeId(4), NodeId(5), NodeId(6)}, [L14, L45, L56, L63, L145632, L32, L5632])
  {
    var path := L145632;
    var visited := {NodeId(1), NodeId(2), NodeId(3), NodeId(4), NodeId(5), NodeId(6)};
    ThreeNeighborsSearch5Scan(path, visited);
    ThreeNeighborsSearch5Lists();
    SearchStep(t, [Frame(NodeId(2), L12), Frame(NodeId(2), L1452), Frame(NodeId(2), L145632)], {NodeId(1), NodeId(3), NodeId(4), NodeId(5), NodeId(6)}, [L14, L45, L56, L63],
               Frame(NodeId(2), path), [Frame(NodeId(2), L12), Frame(NodeId(2), L1452)], L135, visited,
               [], [L145632, L32, L5632], [Frame(NodeId(2), L12), Frame(NodeId(2), L1452)], [L14, L45, L56, L63, L145632, L32, L5632]);
  }

  lemma ThreeNeighborsSearch5Lists()
    ensures [Frame(NodeId(2), L12), Frame(NodeId(2), L1452), Frame(NodeId(2), L145632)] == [Frame(NodeId(2), L12), Frame(NodeId(2), L1452)] + [Frame(NodeId(2), L145632)]
    ensures [Frame(NodeId(2), L12), Frame(NodeId(2), L1452)] == [Frame(NodeId(2), L12), Frame(NodeId(2), L1452)] + []
    ensures [L14, L45, L56, L63, L145632, L32, L5632] == [L14, L45, L56, L63] + [L145632, L32, L5632]
    ensures {NodeId(1), NodeId(2), NodeId(3), NodeId(4), NodeId(5), NodeId(6)} == {NodeId(1), NodeId(3), NodeId(4), NodeId(5), NodeId(6)} + {NodeId(2)}
  {
  }

  lemma ThreeNeighborsSearch5Closes(path: seq<NodeId>)
    requires path == L145632
    ensures ClosesAt(path, NodeId(1), 0, L145632) && ClosesAt(path, NodeId(3), 4, L32)
    ensures ClosesAt(path, NodeId(5), 2, L5632)
  {
    assert path[..2] == [NodeId(1), NodeId(4)] && path[..4] == [NodeId(1), NodeId(4), NodeId(5), NodeId(6)];
  }

  lemma ThreeNeighborsSearch5Scan(path: seq<NodeId>, visited: set<NodeId>)
    requires path == L145632 && visited == {NodeId(1), NodeId(2), NodeId(3), NodeId(4), NodeId(5), NodeId(6)}
    ensures Expand(path, L135, visited).0 == []
    ensures Expand(path, L135, visited).1 == [L145632, L32, L5632]
  {
    ThreeNeighborsSearch5Closes(path);
    ThreeNeighborsSearch5Tail(path, visited);
  }

  lemma ThreeNeighborsSearch5Tail(path: seq<NodeId>, visited: set<NodeId>)
    requires ClosesAt(path, NodeId(1), 0, L145632) && ClosesAt(path, NodeId(3), 4, L32)
    requires ClosesAt(path, NodeId(5), 2, L5632)
    ensures Expand(path, L135, visited).0 == []
    ensures Expand(path, L135, visited).1 == [L145632, L32, L5632]
  {
    ScanOne(path, visited, [], NodeId(1), L1, [], 0, L145632,
            [], [], [], [L145632]);
    ScanOne(path, visited, L1, NodeId(3), L13, [], 4, L32,
            [], [L145632], [], [L145632, L32]);
    ThreeNeighborsSearch5Last(path, visited);
  }

  lemma ThreeNeighborsSearch5Last(path: seq<NodeId>, visited: set<NodeId>)
    requires ClosesAt(path, NodeId(5), 2, L5632)
    requires Expand(path, L13, visited).0 == [] && Expand(path, L13, visited).1 == [L145632, L32]
    ensures Expand(path, L135, visited).0 == []
    ensures Expand(path, L135, visited).1 == [L145632, L32, L5632]
  {
    ScanOne(path, visited, L13, NodeId(5), L135, [], 2, L5632,
            [], [L145632, L32], [], [L145632, L32, L5632]);
  }

  lemma ThreeNeighborsSearch6(t: Graph)
    requires Neighbors(t, NodeId(2)) == L135
    requires ValidStack(t, [Frame(NodeId(2), L12), Frame(NodeId(2), L1452)])
    ensures ValidStack(t, [Frame(NodeId(2), L12)])
    ensures Dfs(t, [Frame(NodeId(2), L12), Frame(NodeId(2), L1452)], {NodeId(1), NodeId(2), NodeId(3), NodeId(4), NodeId(5), NodeId(6)}, [L14, L45, L56, L63, L145632, L32, L5632])
         == Dfs(t, [Frame(NodeId(2), L12)], {NodeId(1), NodeId(2), NodeId(3), NodeId(4), NodeId(5), NodeId(6)}, [L14, L45, L56, L63, L145632, L32, L5632, L1452, L52])
  {
    var path := L1452;
    var visited := {NodeId(1), NodeId(2), NodeId(3), NodeId(4), NodeId(5), NodeId(6)};
    ThreeNeighborsSearch6Scan(path, visited);
    ThreeNeighborsSearch6Lists();
    SearchStep(t, [Frame(NodeId(2), L12), Frame(NodeId(2), L1452)], {NodeId(1), NodeId(2), NodeId(3), NodeId(4), NodeId(5), NodeId(6)}, [L14, L45, L56, L63, L145632, L32, L5632],
               Frame(NodeId(2), path), [Frame(NodeId(2), L12)], L135, visited,
               [], [L1452, L52], [Frame(NodeId(2), L12)], [L14, L45, L56, L63, L145632, L32, L5632, L1452, L52]);
  }

  lemma ThreeNeighborsSearch6Lists()
    ensures [Frame(NodeId(2), L12), Frame(NodeId(2), L1452)] == [Frame(NodeId(2), L12)] + [Frame(NodeId(2), L1452)]
    ensures [Frame(NodeId(2), L12)] == [Frame(NodeId(2), L12)] + []
    ensures [L14, L45, L56, L63, L145632, L32, L5632, L1452, L52] == [L14, L45, L56, L63, L145632, L32, L5632] + [L1452, L52]
    ensures {NodeId(1), NodeId(2), NodeId(3), NodeId(4), NodeId(5), NodeId(6)} == {NodeId(1), NodeId(2), NodeId(3), NodeId(4), NodeId(5), NodeId(6)} + {NodeId(2)}
  {
  }

  lemma ThreeNeighborsSearch6Scan0(path: seq<NodeId>, visited: set<NodeId>)
    requires path == L1452 && visited == {NodeId(1), NodeId(2), NodeId(3), NodeId(4), NodeId(5), NodeId(6)}
    ensures Expand(path, L13, visited).0 == []
    ensures Expand(path, L13, visited).1 == [L1452]
  {
    ScanOne(path, visited, [], NodeId(1), L1, [], 0, L1452,
            [], [], [], [L1452]);
    ScanOne(path, visited, L1, NodeId(3), L13, [], 0, [],
            [], [L1452], [], [L1452]);
  }

  lemma ThreeNeighborsSearch6Scan(path: seq<NodeId>, visited: set<NodeId>)
    requires path == L1452 && visited == {NodeId(1), NodeId(2), NodeId(3), NodeId(4), NodeId(5), NodeId(6)}
    ensures Expand(path, L135, visited).0 == []
    ensures Expand(path, L135, visited).1 == [L1452, L52]
  {
    ThreeNeighborsSearch6Scan0(path, visited);
    ScanOne(path, visited, L13, NodeId(5), L135, [], 2, L52,
            [], [L1452], [], [L1452, L52]);
  }

  lemma ThreeNeighborsSearch7(t: Graph)
    requires Neighbors(t, NodeId(2)) == L135
    requires ValidStack(t, [Frame(NodeId(2), L12)])
    ensures ValidStack(t, [])
    ensures Dfs(t, [Frame(NodeId(2), L12)], {NodeId(1), NodeId(2), NodeId(3), NodeId(4), NodeId(5), NodeId(6)}, [L14, L45, L56, L63, L145632, L32, L5632, L1452, L52])
         == Dfs(t, [], {NodeId(1), NodeId(2), NodeId(3), NodeId(4), NodeId(5), NodeId(6)}, [L14, L45, L56, L63, L145632, L32, L5632, L1452, L52, L12])
  {
    var path := L12;
    var visited := {NodeId(1), NodeId(2), NodeId(3), NodeId(4), NodeId(5), NodeId(6)};
    ThreeNeighborsSearch7Scan(path, visited);
    ThreeNeighborsSearch7Lists();
    SearchStep(t, [Frame(NodeId(2), L12)], {NodeId(1), NodeId(2), NodeId(3), NodeId(4), NodeId(5), NodeId(6)}, [L14, L45, L56, L63, L145632, L32, L5632, L1452, L52],
               Frame(NodeId(2), path), [], L135, visited,
               [], [L12], [], [L14, L45, L56, L63, L145632, L32, L5632, L1452, L52, L12]);
  }

  lemma ThreeNeighborsSearch7Lists()
    ensures [Frame(NodeId(2), L12)] == [] + [Frame(NodeId(2), L12)]
    ensures [L14, L45, L56, L63, L145632, L32, L5632, L1452, L52, L12] == [L14, L45, L56, L63, L145632, L32, L5632, L1452, L52] + [L12]
    ensures {NodeId(1), NodeId(2), NodeId(3), NodeId(4), NodeId(5), NodeId(6)} == {NodeId(1), NodeId(2), NodeId(3), NodeId(4), NodeId(5), NodeId(6)} + {NodeId(2)}
  {
  }

  lemma ThreeNeighborsSearch7Scan0(path: seq<NodeId>, visited: set<NodeId>)
    requires path == L12 && visited == {NodeId(1), NodeId(2), NodeId(3), NodeId(4), NodeId(5), NodeId(6)}
    ensures Expand(path, L13, visited).0 == []
    ensures Expand(path, L13, visited).1 == [L12]
  {
    ScanOne(path, visited, [], NodeId(1), L1, [], 0, L12,
            [], [], [], [L12]);
    ScanOne(path, visited, L1, NodeId(3), L13, [], 0, [],
            [], [L12], [], [L12]);
  }

  lemma ThreeNeighborsSearch7Scan(path: seq<NodeId>, visited: set<NodeId>)
    requires path == L12 && visited == {NodeId(1), NodeId(2), NodeId(3), NodeId(4), NodeId(5), NodeId(6)}
    ensures Expand(path, L135, visited).0 == []
    ensures Expand(path, L135, visited).1 == [L12]
  {
    ThreeNeighborsSearch7Scan0(path, visited);
    ScanOne(path, visited, L13, NodeId(5), L135, [], 0, [],
            [], [L12], [], [L12]);
  }

  /** The search on a topology with the lists of `ThreeNeighborsGraph`, starting from NodeId(1). */
  lemma ThreeNeighborsSearch(t: Graph)
    requires t.Keys == {NodeId(1), NodeId(2), NodeId(3), NodeId(4), NodeId(5), NodeId(6)}
    requires t[NodeId(1)] == L24
    requires t[NodeId(2)] == L135
    requires t[NodeId(3)] == L26
    requires t[NodeId(4)] == L15
    requires t[NodeId(5)] == L246
    requires t[NodeId(6)] == L35
    ensures t != map[]
    ensures SearchCycles(t) == [L14, L45, L56, L63, L145632, L32, L5632, L1452, L52, L12]
  {
    assert NodeId(1) in t.Keys;
    MinKeyUnique(t, NodeId(1));
    StartFrameValid(t, NodeId(1));
    ThreeNeighborsSearch0(t);
    ThreeNeighborsSearch1(t);
    ThreeNeighborsSearch2(t);
    ThreeNeighborsSearch3(t);
    ThreeNeighborsSearch4(t);
    ThreeNeighborsSearch5(t);
    ThreeNeighborsSearch6(t);
    ThreeNeighborsSearch7(t);
  }

  /** Pruning the cycles found on `ThreeNeighborsGraph`. */
  lemma ThreeNeighborsPrune0(original: seq<seq<NodeId>>)
    requires |original| > 0 && original[0] == L14
    ensures PruneFrom(original, 0, [L14, L45, L56, L63, L145632, L32, L5632, L1452, L52, L12]) == PruneFrom(original, 1, [L45, L56, L63, L145632, L32, L5632, L1452, L52, L12])
  {
    var current := [L14, L45, L56, L63, L145632, L32, L5632, L1452, L52, L12];
    var x := L14;
    ThreeNeighborsPrune0Test(current, x);
    ThreeNeighborsPrune0Without(current, x);
    PruneStep(original, 0, x, current, [L45, L56, L63, L145632, L32, L5632, L1452, L52, L12]);
  }

  lemma ThreeNeighborsPrune0Test(current: seq<seq<NodeId>>, x: seq<NodeId>)
    requires current == [L14, L45, L56, L63, L145632, L32, L5632, L1452, L52, L12] && x == L14
    ensures ContainedElsewhere(current, x)
  {
    ContainedAt(current, x, 4, L145632);
  }

  lemma ThreeNeighborsPrune0Without(current: seq<seq<NodeId>>, x: seq<NodeId>)
    requires current == [L14, L45, L56, L63, L145632, L32, L5632, L1452, L52, L12] && x == L14
    ensures Without(current, x) == [L45, L56, L63, L145632, L32, L5632, L1452, L52, L12]
  {
    forall j | 0 <= j < |current| && j != 0 ensures current[j] != x {
      if j == 1 {
        assert current[j][0] != x[0];
      } else if j == 2 {
        assert current[j][0] != x[0];
      } else if j == 3 {
        assert current[j][0] != x[0];
      } else if j == 4 {
        assert |current[j]| != |x|;
      } else if j == 5 {
        assert current[j][0] != x[0];
      } else if j == 6 {
        assert |current[j]| != |x|;
      } else if j == 7 {
        assert |current[j]| != |x|;
      } else if j == 8 {
        assert current[j][0] != x[0];
      } else {
        assert current[j][1] != x[1];
      }
    }
    WithoutOne(current, x, 0);
  }

  lemma ThreeNeighborsPrune1(original: seq<seq<NodeId>>)
    requires |original| > 1 && original[1] == L45
    ensures PruneFrom(original, 1, [L45, L56, L63, L145632, L32, L5632, L1452, L52, L12]) == PruneFrom(original, 2, [L56, L63, L145632, L32, L5632, L1452, L52, L12])
  {
    var current := [L45, L56, L63, L145632, L32, L5632, L1452, L52, L12];
    var x := L45;
    ThreeNeighborsPrune1Test(current, x);
    ThreeNeighborsPrune1Without(current, x);
    PruneStep(original, 1, x, current, [L56, L63, L145632, L32, L5632, L1452, L52, L12]);
  }

  lemma ThreeNeighborsPrune1Test(current: seq<seq<NodeId>>, x: seq<NodeId>)
    requires current == [L45, L56, L63, L145632, L32, L5632, L1452, L52, L12] && x == L45
    ensures ContainedElsewhere(current, x)
  {
    ContainedAt(current, x, 3, L145632);
  }

  lemma ThreeNeighborsPrune1Without(current: seq<seq<NodeId>>, x: seq<NodeId>)
    requires current == [L45, L56, L63, L145632, L32, L5632, L1452, L52, L12] && x == L45
    ensures Without(current, x) == [L56, L63, L145632, L32, L5632, L1452, L52, L12]
  {
    forall j | 0 <= j < |current| && j != 0 ensures current[j] != x {
      if j == 1 {
        assert current[j][0] != x[0];
      } else if j == 2 {
        assert current[j][0] != x[0];
      } else if j == 3 {
        assert |current[j]| != |x|;
      } else if j == 4 {
        assert current[j][0] != x[0];
      } else if j == 5 {
        assert |current[j]| != |x|;
      } else if j == 6 {
        assert |current[j]| != |x|;
      } else if j == 7 {
        assert current[j][0] != x[0];
      } else {
        assert current[j][0] != x[0];
      }
    }
    WithoutOne(current, x, 0);
  }

  lemma ThreeNeighborsPrune2(original: seq<seq<NodeId>>)
    requires |original| > 2 && original[2] == L56
    ensures PruneFrom(original, 2, [L56, L63, L145632, L32, L5632, L1452, L52, L12]) == PruneFrom(original, 3, [L63, L145632, L32, L5632, L1452, L52, L12])
  {
    var current := [L56, L63, L145632, L32, L5632, L1452, L52, L12];
    var x := L56;
    ThreeNeighborsPrune2Test(current, x);
    ThreeNeighborsPrune2Without(current, x);
    PruneStep(original, 2, x, current, [L63, L145632, L32, L5632, L1452, L52, L12]);
  }

  lemma ThreeNeighborsPrune2Test(current: seq<seq<NodeId>>, x: seq<NodeId>)
    requires current == [L56, L63, L145632, L32, L5632, L1452, L52, L12] && x == L56
    ensures ContainedElsewhere(current, x)
  {
    ContainedAt(current, x, 2, L145632);
  }

  lemma ThreeNeighborsPrune2Without(current: seq<seq<NodeId>>, x: seq<NodeId>)
    requires current == [L56, L63, L145632, L32, L5632, L1452, L52, L12] && x == L56
    ensures Without(current, x) == [L63, L145632, L32, L5632, L1452, L52, L12]
  {
    forall j | 0 <= j < |current| && j != 0 ensures current[j] != x {
      if j == 1 {
        assert current[j][0] != x[0];
      } else if j == 2 {
        assert |current[j]| != |x|;
      } else if j == 3 {
        assert current[j][0] != x[0];
      } else if j == 4 {
        assert |current[j]| != |x|;
      } else if j == 5 {
        assert |current[j]| != |x|;
      } else if j == 6 {
        assert current[j][1] != x[1];
      } else {
        assert current[j][0] != x[0];
      }
    }
    WithoutOne(current, x, 0);
  }

  lemma ThreeNeighborsPrune3(original: seq<seq<NodeId>>)
    requires |original| > 3 && original[3] == L63
    ensures PruneFrom(original, 3, [L63, L145632, L32, L5632, L1452, L52, L12]) == PruneFrom(original, 4, [L145632, L32, L5632, L1452, L52, L12])
  {
    var current := [L63, L145632, L32, L5632, L1452, L52, L12];
    var x := L63;
    ThreeNeighborsPrune3Test(current, x);
    ThreeNeighborsPrune3Without(current, x);
    PruneStep(original, 3, x, current, [L145632, L32, L5632, L1452, L52, L12]);
  }

  lemma ThreeNeighborsPrune3Test(current: seq<seq<NodeId>>, x: seq<NodeId>)
    requires current == [L63, L145632, L32, L5632, L1452, L52, L12] && x == L63
    ensures ContainedElsewhere(current, x)
  {
    ContainedAt(current, x, 1, L145632);
  }

  lemma ThreeNeighborsPrune3Without(current: seq<seq<NodeId>>, x: seq<NodeId>)
    requires current == [L63, L145632, L32, L5632, L1452, L52, L12] && x == L63
    ensures Without(current, x) == [L145632, L32, L5632, L1452, L52, L12]
  {
    forall j | 0 <= j < |current| && j != 0 ensures current[j] != x {
      if j == 1 {
        assert |current[j]| != |x|;
      } else if j == 2 {
        assert current[j][0] != x[0];
      } else if j == 3 {
        assert |current[j]| != |x|;
      } else if j == 4 {
        assert |current[j]| != |x|;
      } else if j == 5 {
        assert current[j][0] != x[0];
      } else {
        assert current[j][0] != x[0];
      }
    }
    WithoutOne(current, x, 0);
  }

  lemma ThreeNeighborsPrune4(original: seq<seq<NodeId>>)
    requires |original| > 4 && original[4] == L145632
    ensures PruneFrom(original, 4, [L145632, L32, L5632, L1452, L52, L12]) == PruneFrom(original, 5, [L145632, L32, L5632, L1452, L52, L12])
  {
    var current := [L145632, L32, L5632, L1452, L52, L12];
    var x := L145632;
    ThreeNeighborsPrune4Test(current, x);
    PruneStep(original, 4, x, current, [L145632, L32, L5632, L1452, L52, L12]);
  }

  lemma ThreeNeighborsPrune4Test(current: seq<seq<NodeId>>, x: seq<NodeId>)
    requires current == [L145632, L32, L5632, L1452, L52, L12] && x == L145632
    ensures !ContainedElsewhere(current, x)
  {
    NoneContainsSelf(current, x, 0);
    NoneContainsNext(current, x, 1, NodeId(1));
    NoneContainsNext(current, x, 2, NodeId(1));
    NoneContainsNext(current, x, 3, NodeId(6));
    NoneContainsNext(current, x, 4, NodeId(1));
    NoneContainsNext(current, x, 5, NodeId(4));
    NotContained(current, x);
  }

  lemma ThreeNeighborsPrune5(original: seq<seq<NodeId>>)
    requires |original| > 5 && original[5] == L32
    ensures PruneFrom(original, 5, [L145632, L32, L5632, L1452, L52, L12]) == PruneFrom(original, 6, [L145632, L5632, L1452, L52, L12])
  {
    var current := [L145632, L32, L5632, L1452, L52, L12];
    var x := L32;
    ThreeNeighborsPrune5Test(current, x);
    ThreeNeighborsPrune5Without(current, x);
    PruneStep(original, 5, x, current, [L145632, L5632, L1452, L52, L12]);
  }

  lemma ThreeNeighborsPrune5Test(current: seq<seq<NodeId>>, x: seq<NodeId>)
    requires current == [L145632, L32, L5632, L1452, L52, L12] && x == L32
    ensures ContainedElsewhere(current, x)
  {
    ContainedAt(current, x, 0, L145632);
  }

  lemma ThreeNeighborsPrune5Without(current: seq<seq<NodeId>>, x: seq<NodeId>)
    requires current == [L145632, L32, L5632, L1452, L52, L12] && x == L32
    ensures Without(current, x) == [L145632, L5632, L1452, L52, L12]
  {
    forall j | 0 <= j < |current| && j != 1 ensures current[j] != x {
      if j == 0 {
        assert |current[j]| != |x|;
      } else if j == 2 {
        assert |current[j]| != |x|;
      } else if j == 3 {
        assert |current[j]| != |x|;
      } else if j == 4 {
        assert current[j][0] != x[0];
      } else {
        assert current[j][0] != x[0];
      }
    }
    WithoutOne(current, x, 1);
  }

  lemma ThreeNeighborsPrune6(original: seq<seq<NodeId>>)
    requires |original| > 6 && original[6] == L5632
    ensures PruneFrom(original, 6, [L145632, L5632, L1452, L52, L12]) == PruneFrom(original, 7, [L145632, L1452, L52, L12])
  {
    var current := [L145632, L5632, L1452, L52, L12];
    var x := L5632;
    ThreeNeighborsPrune6Test(current, x);
    ThreeNeighborsPrune6Without(current, x);
    PruneStep(original, 6, x, current, [L145632, L1452, L52, L12]);
  }

  lemma ThreeNeighborsPrune6Test(current: seq<seq<NodeId>>, x: seq<NodeId>)
    requires current == [L145632, L5632, L1452, L52, L12] && x == L5632
    ensures ContainedElsewhere(current, x)
  {
    ContainedAt(current, x, 0, L145632);
  }

  lemma ThreeNeighborsPrune6Without(current: seq<seq<NodeId>>, x: seq<NodeId>)
    requires current == [L145632, L5632, L1452, L52, L12] && x == L5632
    ensures Without(current, x) == [L145632, L1452, L52, L12]
  {
    forall j | 0 <= j < |current| && j != 1 ensures current[j] != x {
      if j == 0 {
        assert |current[j]| != |x|;
      } else if j == 2 {
        assert current[j][0] != x[0];
      } else if j == 3 {
        assert |current[j]| != |x|;
      } else {
        assert |current[j]| != |x|;
      }
    }
    WithoutOne(current, x, 1);
  }

  lemma ThreeNeighborsPrune7(original: seq<seq<NodeId>>)
    requires |original| > 7 && original[7] == L1452
    ensures PruneFrom(original, 7, [L145632, L1452, L52, L12]) == PruneFrom(original, 8, [L145632, L52, L12])
  {
    var current := [L145632, L1452, L52, L12];
    var x := L1452;
    ThreeNeighborsPrune7Test(current, x);
    ThreeNeighborsPrune7Without(current, x);
    PruneStep(original, 7, x, current, [L145632, L52, L12]);
  }

  lemma ThreeNeighborsPrune7Test(current: seq<seq<NodeId>>, x: seq<NodeId>)
    requires current == [L145632, L1452, L52, L12] && x == L1452
    ensures ContainedElsewhere(current, x)
  {
    ContainedAt(current, x, 0, L145632);
  }

  lemma ThreeNeighborsPrune7Without(current: seq<seq<NodeId>>, x: seq<NodeId>)
    requires current == [L145632, L1452, L52, L12] && x == L1452
    ensures Without(current, x) == [L145632, L52, L12]
  {
    forall j | 0 <= j < |current| && j != 1 ensures current[j] != x {
      if j == 0 {
        assert |current[j]| != |x|;
      } else if j == 2 {
        assert |current[j]| != |x|;
      } else {
        assert |current[j]| != |x|;
      }
    }
    WithoutOne(current, x, 1);
  }

  lemma ThreeNeighborsPrune8(original: seq<seq<NodeId>>)
    requires |original| > 8 && original[8] == L52
    ensures PruneFrom(original, 8, [L145632, L52, L12]) == PruneFrom(original, 9, [L145632, L12])
  {
    var current := [L145632, L52, L12];
    var x := L52;
    ThreeNeighborsPrune8Test(current, x);
    ThreeNeighborsPrune8Without(current, x);
    PruneStep(original, 8, x, current, [L145632, L12]);
  }

  lemma ThreeNeighborsPrune8Test(current: seq<seq<NodeId>>, x: seq<NodeId>)
    requires current == [L145632, L52, L12] && x == L52
    ensures ContainedElsewhere(current, x)
  {
    ContainedAt(current, x, 0, L145632);
  }

  lemma ThreeNeighborsPrune8Without(current: seq<seq<NodeId>>, x: seq<NodeId>)
    requires current == [L145632, L52, L12] && x == L52
    ensures Without(current, x) == [L145632, L12]
  {
    forall j | 0 <= j < |current| && j != 1 ensures current[j] != x {
      if j == 0 {
        assert |current[j]| != |x|;
      } else {
        assert current[j][0] != x[0];
      }
    }
    WithoutOne(current, x, 1);
  }

  lemma ThreeNeighborsPrune9(original: seq<seq<NodeId>>)
    requires |original| > 9 && original[9] == L12
    ensures PruneFrom(original, 9, [L145632, L12]) == PruneFrom(original, 10, [L145632])
  {
    var current := [L145632, L12];
    var x := L12;
    ThreeNeighborsPrune9Test(current, x);
    ThreeNeighborsPrune9Without(current, x);
    PruneStep(original, 9, x, current, [L145632]);
  }

  lemma ThreeNeighborsPrune9Test(current: seq<seq<NodeId>>, x: seq<NodeId>)
    requires current == [L145632, L12] && x == L12
    ensures ContainedElsewhere(current, x)
  {
    ContainedAt(current, x, 0, L145632);
  }

  lemma ThreeNeighborsPrune9Without(current: seq<seq<NodeId>>, x: seq<NodeId>)
    requires current == [L145632, L12] && x == L12
    ensures Without(current, x) == [L145632]
  {
    forall j | 0 <= j < |current| && j != 1 ensures current[j] != x {
      if j == 0 {
        assert |current[j]| != |x|;
      }
    }
    WithoutOne(current, x, 1);
  }

  lemma ThreeNeighborsPruneFrom9(original: seq<seq<NodeId>>)
    requires original == [L14, L45, L56, L63, L145632, L32, L5632, L1452, L52, L12]
    ensures PruneFrom(original, 9, [L145632, L12]) == [L145632]
  {
    ThreeNeighborsPrune9(original);
  }

  lemma ThreeNeighborsPruneFrom8(original: seq<seq<NodeId>>)
    requires original == [L14, L45, L56, L63, L145632, L32, L5632, L1452, L52, L12]
    ensures PruneFrom(original, 8, [L145632, L52, L12]) == [L145632]
  {
    ThreeNeighborsPrune8(original);
    ThreeNeighborsPruneFrom9(original);
  }

  lemma ThreeNeighborsPruneFrom7(original: seq<seq<NodeId>>)
    requires original == [L14, L45, L56, L63, L145632, L32, L5632, L1452, L52, L12]
    ensures PruneFrom(original, 7, [L145632, L1452, L52, L12]) == [L145632]
  {
    ThreeNeighborsPrune7(original);
    ThreeNeighborsPruneFrom8(original);
  }

  lemma ThreeNeighborsPruneFrom6(original: seq<seq<NodeId>>)
    requires original == [L14, L45, L56, L63, L145632, L32, L5632, L1452, L52, L12]
    ensures PruneFrom(original, 6, [L145632, L5632, L1452, L52, L12]) == [L145632]
  {
    ThreeNeighborsPrune6(original);
    ThreeNeighborsPruneFrom7(original);
  }

  lemma ThreeNeighborsPruneFrom5(original: seq<seq<NodeId>>)
    requires original == [L14, L45, L56, L63, L145632, L32, L5632, L1452, L52, L12]
    ensures PruneFrom(original, 5, [L145632, L32, L5632, L1452, L52, L12]) == [L145632]
  {
    ThreeNeighborsPrune5(original);
    ThreeNeighborsPruneFrom6(original);
  }

  lemma ThreeNeighborsPruneFrom4(original: seq<seq<NodeId>>)
    requires original == [L14, L45, L56, L63, L145632, L32, L5632, L1452, L52, L12]
    ensures PruneFrom(original, 4, [L145632, L32, L5632, L1452, L52, L12]) == [L145632]
  {
    ThreeNeighborsPrune4(original);
    ThreeNeighborsPruneFrom5(original);
  }

  lemma ThreeNeighborsPruneFrom3(original: seq<seq<NodeId>>)
    requires original == [L14, L45, L56, L63, L145632, L32, L5632, L1452, L52, L12]
    ensures PruneFrom(original, 3, [L63, L145632, L32, L5632, L1452, L52, L12]) == [L145632]
  {
    ThreeNeighborsPrune3(original);
    ThreeNeighborsPruneFrom4(original);
  }

  lemma ThreeNeighborsPruneFrom2(original: seq<seq<NodeId>>)
    requires original == [L14, L45, L56, L63, L145632, L32, L5632, L1452, L52, L12]
    ensures PruneFrom(original, 2, [L56, L63, L145632, L32, L5632, L1452, L52, L12]) == [L145632]
  {
    ThreeNeighborsPrune2(original);
    ThreeNeighborsPruneFrom3(original);
  }

  lemma ThreeNeighborsPruneFrom1(original: seq<seq<NodeId>>)
    requires original == [L14, L45, L56, L63, L145632, L32, L5632, L1452, L52, L12]
    ensures PruneFrom(original, 1, [L45, L56, L63, L145632, L32, L5632, L1452, L52, L12]) == [L145632]
  {
    ThreeNeighborsPrune1(original);
    ThreeNeighborsPruneFrom2(original);
  }

  lemma ThreeNeighborsPruneFrom0(original: seq<seq<NodeId>>)
    requires original == [L14, L45, L56, L63, L145632, L32, L5632, L1452, L52, L12]
    ensures PruneFrom(original, 0, [L14, L45, L56, L63, L145632, L32, L5632, L1452, L52, L12]) == [L145632]
  {
    ThreeNeighborsPrune0(original);
    ThreeNeighborsPruneFrom1(original);
  }

  lemma ThreeNeighborsPrune(original: seq<seq<NodeId>>)
    requires original == [L14, L45, L56, L63, L145632, L32, L5632, L1452, L52, L12]
    ensures Pruned(original) == [L145632]
  {
    ThreeNeighborsPruneFrom0(original);
  }

  lemma ThreeNeighborsSelect1(cycles: seq<seq<NodeId>>, n: NodeId)
    requires cycles == [L145632] && n == NodeId(1)
    ensures Dedup(Successors(cycles, n)) == L4
  {
    SuccessorAt(L145632, n, 0, NodeId(4));
    SuccessorsOne(L145632, n);
    DedupOne(NodeId(4));
  }

  lemma ThreeNeighborsSelect2(cycles: seq<seq<NodeId>>, n: NodeId)
    requires cycles == [L145632] && n == NodeId(2)
    ensures Dedup(Successors(cycles, n)) == L1
  {
    SuccessorAt(L145632, n, 5, NodeId(1));
    SuccessorsOne(L145632, n);
    DedupOne(NodeId(1));
  }

  lemma ThreeNeighborsSelect3(cycles: seq<seq<NodeId>>, n: NodeId)
    requires cycles == [L145632] && n == NodeId(3)
    ensures Dedup(Successors(cycles, n)) == L2
  {
    SuccessorAt(L145632, n, 4, NodeId(2));
    SuccessorsOne(L145632, n);
    DedupOne(NodeId(2));
  }

  lemma ThreeNeighborsSelect4(cycles: seq<seq<NodeId>>, n: NodeId)
    requires cycles == [L145632] && n == NodeId(4)
    ensures Dedup(Successors(cycles, n)) == L5
  {
    SuccessorAt(L145632, n, 1, NodeId(5));
    SuccessorsOne(L145632, n);
    DedupOne(NodeId(5));
  }

  lemma ThreeNeighborsSelect5(cycles: seq<seq<NodeId>>, n: NodeId)
    requires cycles == [L145632] && n == NodeId(5)
    ensures Dedup(Successors(cycles, n)) == L6
  {
    SuccessorAt(L145632, n, 2, NodeId(6));
    SuccessorsOne(L145632, n);
    DedupOne(NodeId(6));
  }

  lemma ThreeNeighborsSelect6(cycles: seq<seq<NodeId>>, n: NodeId)
    requires cycles == [L145632] && n == NodeId(6)
    ensures Dedup(Successors(cycles, n)) == L3
  {
    SuccessorAt(L145632, n, 3, NodeId(3));
    SuccessorsOne(L145632, n);
    DedupOne(NodeId(3));
  }

  /** Every list of `ThreeNeighborsGraph` is already sorted. */
  lemma ThreeNeighborsSorted()
    ensures forall k | k in ThreeNeighborsGraph :: Sorted(ThreeNeighborsGraph[k])
  {
    assert Sorted(L135);
    assert Sorted(L15);
    assert Sorted(L24);
    assert Sorted(L246);
    assert Sorted(L26);
    assert Sorted(L35);
    assert ThreeNeighborsGraph.Keys == {NodeId(1), NodeId(2), NodeId(3), NodeId(4), NodeId(5), NodeId(6)};
    assert ThreeNeighborsGraph[NodeId(1)] == L24 && ThreeNeighborsGraph[NodeId(2)] == L135 && ThreeNeighborsGraph[NodeId(3)] == L26 && ThreeNeighborsGraph[NodeId(4)] == L15 && ThreeNeighborsGraph[NodeId(5)] == L246 && ThreeNeighborsGraph[NodeId(6)] == L35;
  }

  /** So the topology `from` builds on `ThreeNeighborsGraph` is `ThreeNeighborsGraph` itself. */
  lemma ThreeNeighborsFrom(t: Graph)
    requires t.Keys == ThreeNeighborsGraph.Keys && forall k | k in t :: t[k] == Sort(ThreeNeighborsGraph[k])
    ensures t == ThreeNeighborsGraph
  {
    ThreeNeighborsSorted();
    FromKeepsSorted(ThreeNeighborsGraph, t);
  }

  lemma ThreeNeighborsLists(t: Graph)
    requires t == ThreeNeighborsGraph
    ensures t.Keys == {NodeId(1), NodeId(2), NodeId(3), NodeId(4), NodeId(5), NodeId(6)}
    ensures t[NodeId(1)] == L24
    ensures t[NodeId(2)] == L135
    ensures t[NodeId(3)] == L26
    ensures t[NodeId(4)] == L15
    ensures t[NodeId(5)] == L246
    ensures t[NodeId(6)] == L35
  {
  }

  /** `three_neighbors`: what `next` returns for each node of the topology built from `ThreeNeighborsGraph`. */
  lemma ThreeNeighbors(t: Graph)
    requires t.Keys == ThreeNeighborsGraph.Keys && forall k | k in t :: t[k] == Sort(ThreeNeighborsGraph[k])
    ensures NextSpec(t, NodeId(1)) == L4
    ensures NextSpec(t, NodeId(2)) == L1
    ensures NextSpec(t, NodeId(3)) == L2
    ensures NextSpec(t, NodeId(4)) == L5
    ensures NextSpec(t, NodeId(5)) == L6
    ensures NextSpec(t, NodeId(6)) == L3
  {
    ThreeNeighborsFrom(t);
    ThreeNeighborsLists(t);
    ThreeNeighborsSearch(t);
    ThreeNeighborsPrune(SearchCycles(t));
    ThreeNeighborsSelect1([L145632], NodeId(1));
    NextFromPruned(t, [L145632], NodeId(1));
    ThreeNeighborsSelect2([L145632], NodeId(2));
    NextFromPruned(t, [L145632], NodeId(2));
    ThreeNeighborsSelect3([L145632], NodeId(3));
    NextFromPruned(t, [L145632], NodeId(3));
    ThreeNeighborsSelect4([L145632], NodeId(4));
    NextFromPruned(t, [L145632], NodeId(4));
    ThreeNeighborsSelect5([L145632], NodeId(5));
    NextFromPruned(t, [L145632], NodeId(5));
    ThreeNeighborsSelect6([L145632], NodeId(6));
    NextFromPruned(t, [L145632], NodeId(6));
  }

  /** The `four_neighbors` test graph: the 3x3 grid. */
  const FourNeighborsGraph: Graph := map[NodeId(1) := L24, NodeId(2) := L135, NodeId(3) := L26, NodeId(4) := L157, NodeId(5) := L2468, NodeId(6) := L359, NodeId(7) := L48, NodeId(8) := L579, NodeId(9) := L68]

  lemma FourNeighborsSearch0(t: Graph)
    requires Neighbors(t, NodeId(1)) == L24
    requires ValidStack(t, [Frame(NodeId(1), L1)])
    ensures ValidStack(t, [Frame(NodeId(2), L12), Frame(NodeId(4), L14)])
    ensures Dfs(t, [Frame(NodeId(1), L1)], {}, [])
         == Dfs(t, [Frame(NodeId(2), L12), Frame(NodeId(4), L14)], {NodeId(1)}, [])
  {
    var path := L1;
    var visited := {NodeId(1)};
    FourNeighborsSearch0Scan(path, visited);
    FourNeighborsSearch0Lists();
    SearchStep(t, [Frame(NodeId(1), L1)], {}, [],
               Frame(NodeId(1), path), [], L24, visited,
               [Frame(NodeId(2), L12), Frame(NodeId(4), L14)], [], [Frame(NodeId(2), L12), Frame(NodeId(4), L14)], []);
  }

  lemma FourNeighborsSearch0Lists()
    ensures [Frame(NodeId(1), L1)] == [] + [Frame(NodeId(1), L1)]
    ensures [Frame(NodeId(2), L12), Frame(NodeId(4), L14)] == [] + [Frame(NodeId(2), L12), Frame(NodeId(4), L14)]
    ensures {NodeId(1)} == {} + {NodeId(1)}
  {
  }

  lemma FourNeighborsSearch0Scan(path: seq<NodeId>, visited: set<NodeId>)
    requires path == L1 && visited == {NodeId(1)}
    ensures Expand(path, L24, visited).0 == [Frame(NodeId(2), L12), Frame(NodeId(4), L14)]
    ensures Expand(path, L24, visited).1 == []
  {
    ScanOne(path, visited, [], NodeId(2), L2, L12, 0, [],
            [], [], [Frame(NodeId(2), L12)], []);
    ScanOne(path, visited, L2, NodeId(4), L24, L14, 0, [],
            [Frame(NodeId(2), L12)], [], [Frame(NodeId(2), L12), Frame(NodeId(4), L14)], []);
  }

  lemma FourNeighborsSearch1(t: Graph)
    requires Neighbors(t, NodeId(4)) == L157
    requires ValidStack(t, [Frame(NodeId(2), L12), Frame(NodeId(4), L14)])
    ensures ValidStack(t, [Frame(NodeId(2), L12), Frame(NodeId(5), L145), Frame(NodeId(7), L147)])
    ensures Dfs(t, [Frame(NodeId(2), L12), Frame(NodeId(4), L14)], {NodeId(1)}, [])
         == Dfs(t, [Frame(NodeId(2), L12), Frame(NodeId(5), L145), Frame(NodeId(7), L147)], {NodeId(1), NodeId(4)}, [L14])
  {
    var path := L14;
    var visited := {NodeId(1), NodeId(4)};
    FourNeighborsSearch1Scan(path, visited);
    FourNeighborsSearch1Lists();
    SearchStep(t, [Frame(NodeId(2), L12), Frame(NodeId(4), L14)], {NodeId(1)}, [],
               Frame(NodeId(4), path), [Frame(NodeId(2), L12)], L157, visited,
               [Frame(NodeId(5), L145), Frame(NodeId(7), L147)], [L14], [Frame(NodeId(2), L12), Frame(NodeId(5), L145), Frame(NodeId(7), L147)], [L14]);
  }

  lemma FourNeighborsSearch1Lists()
    ensures [Frame(NodeId(2), L12), Frame(NodeId(4), L14)] == [Frame(NodeId(2), L12)] + [Frame(NodeId(4), L14)]
    ensures [Frame(NodeId(2), L12), Frame(NodeId(5), L145), Frame(NodeId(7), L147)] == [Frame(NodeId(2), L12)] + [Frame(NodeId(5), L145), Frame(NodeId(7), L147)]
    ensures [L14] == [] + [L14]
    ensures {NodeId(1), NodeId(4)} == {NodeId(1)} + {NodeId(4)}
  {
  }

  lemma FourNeighborsSearch1Scan0(path: seq<NodeId>, visited: set<NodeId>)
    requires path == L14 && visited == {NodeId(1), NodeId(4)}
    ensures Expand(path, L15, visited).0 == [Frame(NodeId(5), L145)]
    ensures Expand(path, L15, visited).1 == [L14]
  {
    ScanOne(path, visited, [], NodeId(1), L1, [], 0, L14,
            [], [], [], [L14]);
    ScanOne(path, visited, L1, NodeId(5), L15, L145, 0, [],
            [], [L14], [Frame(NodeId(5), L145)], [L14]);
  }

  lemma FourNeighborsSearch1Scan(path: seq<NodeId>, visited: set<NodeId>)
    requires path == L14 && visited == {NodeId(1), NodeId(4)}
    ensures Expand(path, L157, visited).0 == [Frame(NodeId(5), L145), Frame(NodeId(7), L147)]
    ensures Expand(path, L157, visited).1 == [L14]
  {
    FourNeighborsSearch1Scan0(path, visited);
    ScanOne(path, visited, L15, NodeId(7), L157, L147, 0, [],
            [Frame(NodeId(5), L145)], [L14], [Frame(NodeId(5), L145), Frame(NodeId(7), L147)], [L14]);
  }

  lemma FourNeighborsSearch2(t: Graph)
    requires Neighbors(t, NodeId(7)) == L48
    requires ValidStack(t, [Frame(NodeId(2), L12), Frame(NodeId(5), L145), Frame(NodeId(7), L147)])
    ensures ValidStack(t, [Frame(NodeId(2), L12), Frame(NodeId(5), L145), Frame(NodeId(8), L1478)])
    ensures Dfs(t, [Frame(NodeId(2), L12), Frame(NodeId(5), L145), Frame(NodeId(7), L147)], {NodeId(1), NodeId(4)}, [L14])
         == Dfs(t, [Frame(NodeId(2), L12), Frame(NodeId(5), L145), Frame(NodeId(8), L1478)], {NodeId(1), NodeId(4), NodeId(7)}, [L14, L47])
  {
    var path := L147;
    var visited := {NodeId(1), NodeId(4), NodeId(7)};
    FourNeighborsSearch2Scan(path, visited);
    FourNeighborsSearch2Lists();
    SearchStep(t, [Frame(NodeId(2), L12), Frame(NodeId(5), L145), Frame(NodeId(7), L147)], {NodeId(1), NodeId(4)}, [L14],
               Frame(NodeId(7), path), [Frame(NodeId(2), L12), Frame(NodeId(5), L145)], L48, visited,
               [Frame(NodeId(8), L1478)], [L47], [Frame(NodeId(2), L12), Frame(NodeId(5), L145), Frame(NodeId(8), L1478)], [L14, L47]);
  }

  lemma FourNeighborsSearch2Lists()
    ensures [Frame(NodeId(2), L12), Frame(NodeId(5), L145), Frame(NodeId(7), L147)] == [Frame(NodeId(2), L12), Frame(NodeId(5), L145)] + [Frame(NodeId(7), L147)]
    ensures [Frame(NodeId(2), L12), Frame(NodeId(5), L145), Frame(NodeId(8), L1478)] == [Frame(NodeId(2), L12), Frame(NodeId(5), L145)] + [Frame(NodeId(8), L1478)]
    ensures [L14, L47] == [L14] + [L47]
    ensures {NodeId(1), NodeId(4), NodeId(7)} == {NodeId(1), NodeId(4)} + {NodeId(7)}
  {
  }

  lemma FourNeighborsSearch2Scan(path: seq<NodeId>, visited: set<NodeId>)
    requires path == L147 && visited == {NodeId(1), NodeId(4), NodeId(7)}
    ensures Expand(path, L48, visited).0 == [Frame(NodeId(8), L1478)]
    ensures Expand(path, L48, visited).1 == [L47]
  {
    ScanOne(path, visited, [], NodeId(4), L4, [], 1, L47,
            [], [], [], [L47]);
    ScanOne(path, visited, L4, NodeId(8), L48, L1478, 0, [],
            [], [L47], [Frame(NodeId(8), L1478)], [L47]);
  }

  lemma FourNeighborsSearch3(t: Graph)
    requires Neighbors(t, NodeId(8)) == L579
    requires ValidStack(t, [Frame(NodeId(2), L12), Frame(NodeId(5), L145), Frame(NodeId(8), L1478)])
    ensures ValidStack(t, [Frame(NodeId(2), L12), Frame(NodeId(5), L145), Frame(NodeId(5), L14785), Frame(NodeId(9), L14789)])
    ensures Dfs(t, [Frame(NodeId(2), L12), Frame(NodeId(5), L145), Frame(NodeId(8), L1478)], {NodeId(1), NodeId(4), NodeId(7)}, [L14, L47])
         == Dfs(t, [Frame(NodeId(2), L12), Frame(NodeId(5), L145), Frame(NodeId(5), L14785), Frame(NodeId(9), L14789)], {NodeId(1), NodeId(4), NodeId(7), NodeId(8)}, [L14, L47, L78])
  {
    var path := L1478;
    var visited := {NodeId(1), NodeId(4), NodeId(7), NodeId(8)};
    FourNeighborsSearch3Scan(path, visited);
    FourNeighborsSearch3Lists();
    SearchStep(t, [Frame(NodeId(2), L12), Frame(NodeId(5), L145), Frame(NodeId(8), L1478)], {NodeId(1), NodeId(4), NodeId(7)}, [L14, L47],
               Frame(NodeId(8), path), [Frame(NodeId(2), L12), Frame(NodeId(5), L145)], L579, visited,
               [Frame(NodeId(5), L14785), Frame(NodeId(9), L14789)], [L78], [Frame(NodeId(2), L12), Frame(NodeId(5), L145), Frame(NodeId(5), L14785), Frame(NodeId(9), L14789)], [L14, L47, L78]);
  }

  lemma FourNeighborsSearch3Lists()
    ensures [Frame(NodeId(2), L12), Frame(NodeId(5), L145), Frame(NodeId(8), L1478)] == [Frame(NodeId(2), L12), Frame(NodeId(5), L145)] + [Frame(NodeId(8), L1478)]
    ensures [Frame(NodeId(2), L12), Frame(NodeId(5), L145), Frame(NodeId(5), L14785), Frame(NodeId(9), L14789)] == [Frame(NodeId(2), L12), Frame(NodeId(5), L145)] + [Frame(NodeId(5), L14785), Frame(NodeId(9), L14789)]
    ensures [L14, L47, L78] == [L14, L47] + [L78]
    ensures {NodeId(1), NodeId(4), NodeId(7), NodeId(8)} == {NodeId(1), NodeId(4), NodeId(7)} + {NodeId(8)}
  {
  }

  lemma FourNeighborsSearch3Scan0(path: seq<NodeId>, visited: set<NodeId>)
    requires path == L1478 && visited == {NodeId(1), NodeId(4), NodeId(7), NodeId(8)}
    ensures Expand(path, L57, visited).0 == [Frame(NodeId(5), L14785)]
    ensures Expand(path, L57, visited).1 == [L78]
  {
    ScanOne(path, visited, [], NodeId(5), L5, L14785, 0, [],
            [], [], [Frame(NodeId(5), L14785)], []);
    ScanOne(path, visited, L5, NodeId(7), L57, [], 2, L78,
            [Frame(NodeId(5), L14785)], [], [Frame(NodeId(5), L14785)], [L78]);
  }

  lemma FourNeighborsSearch3Scan(path: seq<NodeId>, visited: set<NodeId>)
    requires path == L1478 && visited == {NodeId(1), NodeId(4), NodeId(7), NodeId(8)}
    ensures Expand(path, L579, visited).0 == [Frame(NodeId(5), L14785), Frame(NodeId(9), L14789)]
    ensures Expand(path, L579, visited).1 == [L78]
  {
    FourNeighborsSearch3Scan0(path, visited);
    ScanOne(path, visited, L57, NodeId(9), L579, L14789, 0, [],
            [Frame(NodeId(5), L14785)], [L78], [Frame(NodeId(5), L14785), Frame(NodeId(9), L14789)], [L78]);
  }

  lemma FourNeighborsSearch4(t: Graph)
    requires Neighbors(t, NodeId(9)) == L68
    requires ValidStack(t, [Frame(NodeId(2), L12), Frame(NodeId(5), L145), Frame(NodeId(5), L14785), Frame(NodeId(9), L14789)])
    ensures ValidStack(t, [Frame(NodeId(2), L12), Frame(NodeId(5), L145), Frame(NodeId(5), L14785), Frame(NodeId(6), L147896)])
    ensures Dfs(t, [Frame(NodeId(2), L12), Frame(NodeId(5), L145), Frame(NodeId(5), L14785), Frame(NodeId(9), L14789)], {NodeId(1), NodeId(4), NodeId(7), NodeId(8)}, [L14, L47, L78])
         == Dfs(t, [Frame(NodeId(2), L12), Frame(NodeId(5), L145), Frame(NodeId(5), L14785), Frame(NodeId(6), L147896)], {NodeId(1), NodeId(4), NodeId(7), NodeId(8), NodeId(9)}, [L14, L47, L78, L89])
  {
    var path := L14789;
    var visited := {NodeId(1), NodeId(4), NodeId(7), NodeId(8), NodeId(9)};
    FourNeighborsSearch4Scan(path, visited);
    FourNeighborsSearch4Lists();
    SearchStep(t, [Frame(NodeId(2), L12), Frame(NodeId(5), L145), Frame(NodeId(5), L14785), Frame(NodeId(9), L14789)], {NodeId(1), NodeId(4), NodeId(7), NodeId(8)}, [L14, L47, L78],
               Frame(NodeId(9), path), [Frame(NodeId(2), L12), Frame(NodeId(5), L145), Frame(NodeId(5), L14785)], L68, visited,
               [Frame(NodeId(6), L147896)], [L89], [Frame(NodeId(2), L12), Frame(NodeId(5), L145), Frame(NodeId(5), L14785), Frame(NodeId(6), L147896)], [L14, L47, L78, L89]);
  }

  lemma FourNeighborsSearch4Lists()
    ensures [Frame(NodeId(2), L12), Frame(NodeId(5), L145), Frame(NodeId(5), L14785), Frame(NodeId(9), L14789)] == [Frame(NodeId(2), L12), Frame(NodeId(5), L145), Frame(NodeId(5), L14785)] + [Frame(NodeId(9), L14789)]
    ensures [Frame(NodeId(2), L12), Frame(NodeId(5), L145), Frame(NodeId(5), L14785), Frame(NodeId(6), L147896)] == [Frame(NodeId(2), L12), Frame(NodeId(5), L145), Frame(NodeId(5), L14785)] + [Frame(NodeId(6), L147896)]
    ensures [L14, L47, L78, L89] == [L14, L47, L78] + [L89]
    ensures {NodeId(1), NodeId(4), NodeId(7), NodeId(8), NodeId(9)} == {NodeId(1), NodeId(4), NodeId(7), NodeId(8)} + {NodeId(9)}
  {
  }

  lemma FourNeighborsSearch4Scan(path: seq<NodeId>, visited: set<NodeId>)
    requires path == L14789 && visited == {NodeId(1), NodeId(4), NodeId(7), NodeId(8), NodeId(9)}
    ensures Expand(path, L68, visited).0 == [Frame(NodeId(6), L147896)]
    ensures Expand(path, L68, visited).1 == [L89]
  {
    ScanOne(path, visited, [], NodeId(6), L6, L147896, 0, [],
            [], [], [Frame(NodeId(6), L147896)], []);
    ScanOne(path, visited, L6, NodeId(8), L68, [], 3, L89,
            [Frame(NodeId(6), L147896)], [], [Frame(NodeId(6), L147896)], [L89]);
  }

  lemma FourNeighborsSearch5(t: Graph)
    requires Neighbors(t, NodeId(6)) == L359
    requires ValidStack(t, [Frame(NodeId(2), L12), Frame(NodeId(5), L145), Frame(NodeId(5), L14785), Frame(NodeId(6), L147896)])
    ensures ValidStack(t, [Frame(NodeId(2), L12), Frame(NodeId(5), L145), Frame(NodeId(5), L14785), Frame(NodeId(3), L1478963), Frame(NodeId(5), L1478965)])
    ensures Dfs(t, [Frame(NodeId(2), L12), Frame(NodeId(5), L145), Frame(NodeId(5), L14785), Frame(NodeId(6), L147896)], {NodeId(1), NodeId(4), NodeId(7), NodeId(8), NodeId(9)}, [L14, L47, L78, L89])
         == Dfs(t, [Frame(NodeId(2), L12), Frame(NodeId(5), L145), Frame(NodeId(5), L14785), Frame(NodeId(3), L1478963), Frame(NodeId(5), L1478965)], {NodeId(1), NodeId(4), NodeId(6), NodeId(7), NodeId(8), NodeId(9)}, [L14, L47, L78, L89, L96])
  {
    var path := L147896;
    var visited := {NodeId(1), NodeId(4), NodeId(6), NodeId(7), NodeId(8), NodeId(9)};
    FourNeighborsSearch5Scan(path, visited);
    FourNeighborsSearch5Lists();
    SearchStep(t, [Frame(NodeId(2), L12), Frame(NodeId(5), L145), Frame(NodeId(5), L14785), Frame(NodeId(6), L147896)], {NodeId(1), NodeId(4), NodeId(7), NodeId(8), NodeId(9)}, [L14, L47, L78, L89],
               Frame(NodeId(6), path), [Frame(NodeId(2), L12), Frame(NodeId(5), L145), Frame(NodeId(5), L14785)], L359, visited,
               [Frame(NodeId(3), L1478963), Frame(NodeId(5), L1478965)], [L96], [Frame(NodeId(2), L12), Frame(NodeId(5), L145), Frame(NodeId(5), L14785), Frame(NodeId(3), L1478963), Frame(NodeId(5), L1478965)], [L14, L47, L78, L89, L96]);
  }

  lemma FourNeighborsSearch5Lists()
    ensures [Frame(NodeId(2), L12), Frame(NodeId(5), L145), Frame(NodeId(5), L14785), Frame(NodeId(6), L147896)] == [Frame(NodeId(2), L12), Frame(NodeId(5), L145), Frame(NodeId(5), L14785)] + [Frame(NodeId(6), L147896)]
    ensures [Frame(NodeId(2), L12), Frame(NodeId(5), L145), Frame(NodeId(5), L14785), Frame(NodeId(3), L1478963), Frame(NodeId(5), L1478965)] == [Frame(NodeId(2), L12), Frame(NodeId(5), L145), Frame(NodeId(5), L14785)] + [Frame(NodeId(3), L1478963), Frame(NodeId(5), L1478965)]
    ensures [L14, L47, L78, L89, L96] == [L14, L47, L78, L89] + [L96]
    ensures {NodeId(1), NodeId(4), NodeId(6), NodeId(7), NodeId(8), NodeId(9)} == {NodeId(1), NodeId(4), NodeId(7), NodeId(8), NodeId(9)} + {NodeId(6)}
  {
  }

  lemma FourNeighborsSearch5Scan0(path: seq<NodeId>, visited: set<NodeId>)
    requires path == L147896 && visited == {NodeId(1), NodeId(4), NodeId(6), NodeId(7), NodeId(8), NodeId(9)}
    ensures Expand(path, L35, visited).0 == [Frame(NodeId(3), L1478963), Frame(NodeId(5), L1478965)]
    ensures Expand(path, L35, visited).1 == []
  {
    ScanOne(path, visited, [], NodeId(3), L3, L1478963, 0, [],
            [], [], [Frame(NodeId(3), L1478963)], []);
    ScanOne(path, visited, L3, NodeId(5), L35, L1478965, 0, [],
            [Frame(NodeId(3), L1478963)], [], [Frame(NodeId(3), L1478963), Frame(NodeId(5), L1478965)], []);
  }

  lemma FourNeighborsSearch5Scan(path: seq<NodeId>, visited: set<NodeId>)
    requires path == L147896 && visited == {NodeId(1), NodeId(4), NodeId(6), NodeId(7), NodeId(8), NodeId(9)}
    ensures Expand(path, L359, visited).0 == [Frame(NodeId(3), L1478963), Frame(NodeId(5), L1478965)]
    ensures Expand(path, L359, visited).1 == [L96]
  {
    FourNeighborsSearch5Scan0(path, visited);
    ScanOne(path, visited, L35, NodeId(9), L359, [], 4, L96,
            [Frame(NodeId(3), L1478963), Frame(NodeId(5), L1478965)], [], [Frame(NodeId(3), L1478963), Frame(NodeId(5), L1478965)], [L96]);
  }

  lemma FourNeighborsSearch6(t: Graph)
    requires Neighbors(t, NodeId(5)) == L2468
    requires ValidStack(t, [Frame(NodeId(2), L12), Frame(NodeId(5), L145), Frame(NodeId(5), L14785), Frame(NodeId(3), L1478963), Frame(NodeId(5), L1478965)])
    ensures ValidStack(t, [Frame(NodeId(2), L12), Frame(NodeId(5), L145), Frame(NodeId(5), L14785), Frame(NodeId(3), L1478963), Frame(NodeId(2), L14789652)])
    ensures Dfs(t, [Frame(NodeId(2), L12), Frame(NodeId(5), L145), Frame(NodeId(5), L14785), Frame(NodeId(3), L1478963), Frame(NodeId(5), L1478965)], {NodeId(1), NodeId(4), NodeId(6), NodeId(7), NodeId(8), NodeId(9)}, [L14, L47, L78, L89, L96])
         == Dfs(t, [Frame(NodeId(2), L12), Frame(NodeId(5), L145), Frame(NodeId(5), L14785), Frame(NodeId(3), L1478963), Frame(NodeId(2), L14789652)], {NodeId(1), NodeId(4), NodeId(5), NodeId(6), NodeId(7), NodeId(8), NodeId(9)}, [L14, L47, L78, L89, L96, L478965, L65, L8965])
  {
    var path := L1478965;
    var visited := {NodeId(1), NodeId(4), NodeId(5), NodeId(6), NodeId(7), NodeId(8), NodeId(9)};
    FourNeighborsSearch6Scan(path, visited);
    FourNeighborsSearch6Lists();
    SearchStep(t, [Frame(NodeId(2), L12), Frame(NodeId(5), L145), Frame(NodeId(5), L14785), Frame(NodeId(3), L1478963), Frame(NodeId(5), L1478965)], {NodeId(1), NodeId(4), NodeId(6), NodeId(7), NodeId(8), NodeId(9)}, [L14, L47, L78, L89, L96],
               Frame(NodeId(5), path), [Frame(NodeId(2), L12), Frame(NodeId(5), L145), Frame(NodeId(5), L14785), Frame(NodeId(3), L1478963)], L2468, visited,
               [Frame(NodeId(2), L14789652)], [L478965, L65, L8965], [Frame(NodeId(2), L12), Frame(NodeId(5), L145), Frame(NodeId(5), L14785), Frame(NodeId(3), L1478963), Frame(NodeId(2), L14789652)], [L14, L47, L78, L89, L96, L478965, L65, L8965]);
  }

  lemma FourNeighborsSearch6Lists()
    ensures [Frame(NodeId(2), L12), Frame(NodeId(5), L145), Frame(NodeId(5), L14785), Frame(NodeId(3), L1478963), Frame(NodeId(5), L1478965)] == [Frame(NodeId(2), L12), Frame(NodeId(5), L145), Frame(NodeId(5), L14785), Frame(NodeId(3), L1478963)] + [Frame(NodeId(5), L1478965)]
    ensures [Frame(NodeId(2), L12), Frame(NodeId(5), L145), Frame(NodeId(5), L14785), Frame(NodeId(3), L1478963), Frame(NodeId(2), L14789652)] == [Frame(NodeId(2), L12), Frame(NodeId(5), L145), Frame(NodeId(5), L14785), Frame(NodeId(3), L1478963)] + [Frame(NodeId(2), L14789652)]
    ensures [L14, L47, L78, L89, L96, L478965, L65, L8965] == [L14, L47, L78, L89, L96] + [L478965, L65, L8965]
    ensures {NodeId(1), NodeId(4), NodeId(5), NodeId(6), NodeId(7), NodeId(8), NodeId(9)} == {NodeId(1), NodeId(4), NodeId(6), NodeId(7), NodeId(8), NodeId(9)} + {NodeId(5)}
  {
  }

  lemma FourNeighborsSearch6Scan0(path: seq<NodeId>, visited: set<NodeId>)
    requires path == L1478965 && visited == {NodeId(1), NodeId(4), NodeId(5), NodeId(6), NodeId(7), NodeId(8), NodeId(9)}
    ensures Expand(path, L24, visited).0 == [Frame(NodeId(2), L14789652)]
    ensures Expand(path, L24, visited).1 == [L478965]
  {
    ScanOne(path, visited, [], NodeId(2), L2, L14789652, 0, [],
            [], [], [Frame(NodeId(2), L14789652)], []);
    ScanOne(path, visited, L2, NodeId(4), L24, [], 1, L478965,
            [Frame(NodeId(2), L14789652)], [], [Frame(NodeId(2), L14789652)], [L478965]);
  }

  lemma FourNeighborsSearch6Closes(path: seq<NodeId>)
    requires path == L1478965
    ensures ClosesAt(path, NodeId(6), 5, L65) && ClosesAt(path, NodeId(8), 3, L8965)
  {
    assert path[..5] == L14789 && path[..3] == [NodeId(1), NodeId(4), NodeId(7)];
  }

  lemma FourNeighborsSearch6Scan(path: seq<NodeId>, visited: set<NodeId>)
    requires path == L1478965 && visited == {NodeId(1), NodeId(4), NodeId(5), NodeId(6), NodeId(7), NodeId(8), NodeId(9)}
    ensures Expand(path, L2468, visited).0 == [Frame(NodeId(2), L14789652)]
    ensures Expand(path, L2468, visited).1 == [L478965, L65, L8965]
  {
    FourNeighborsSearch6Closes(path);
    FourNeighborsSearch6Scan0(path, visited);
    FourNeighborsSearch6Tail(path, visited);
  }

  lemma FourNeighborsSearch6Tail(path: seq<NodeId>, visited: set<NodeId>)
    requires ClosesAt(path, NodeId(6), 5, L65) && ClosesAt(path, NodeId(8), 3, L8965)
    requires Expand(path, L24, visited).0 == [Frame(NodeId(2), L14789652)]
    requires Expand(path, L24, visited).1 == [L478965]
    ensures Expand(path, L2468, visited).0 == [Frame(NodeId(2), L14789652)]
    ensures Expand(path, L2468, visited).1 == [L478965, L65, L8965]
  {
    ScanOne(path, visited, L24, NodeId(6), L246, [], 5, L65,
            [Frame(NodeId(2), L14789652)], [L478965], [Frame(NodeId(2), L14789652)], [L478965, L65]);
    ScanOne(path, visited, L246, NodeId(8), L2468, [], 3, L8965,
            [Frame(NodeId(2), L14789652)], [L478965, L65], [Frame(NodeId(2), L14789652)], [L478965, L65, L8965]);
  }

  lemma FourNeighborsSearch7(t: Graph)
    requires Neighbors(t, NodeId(2)) == L135
    requires ValidStack(t, [Frame(NodeId(2), L12), Frame(NodeId(5), L145), Frame(NodeId(5), L14785), Frame(NodeId(3), L1478963), Frame(NodeId(2), L14789652)])
    ensures ValidStack(t, [Frame(NodeId(2), L12), Frame(NodeId(5), L145), Frame(NodeId(5), L14785), Frame(NodeId(3), L1478963), Frame(NodeId(3), L147896523)])
    ensures Dfs(t, [Frame(NodeId(2), L12), Frame(NodeId(5), L145), Frame(NodeId(5), L14785), Frame(NodeId(3), L1478963), Frame(NodeId(2), L14789652)], {NodeId(1), NodeId(4), NodeId(5), NodeId(6), NodeId(7), NodeId(8), NodeId(9)}, [L14, L47, L78, L89, L96, L478965, L65, L8965])
         == Dfs(t, [Frame(NodeId(2), L12), Frame(NodeId(5), L145), Frame(NodeId(5), L14785), Frame(NodeId(3), L1478963), Frame(NodeId(3), L147896523)], {NodeId(1), NodeId(2), NodeId(4), NodeId(5), NodeId(6), NodeId(7), NodeId(8), NodeId(9)}, [L14, L47, L78, L89, L96, L478965, L65, L8965, L14789652, L52])
  {
    var path := L14789652;
    var visited := {NodeId(1), NodeId(2), NodeId(4), NodeId(5), NodeId(6), NodeId(7), NodeId(8), NodeId(9)};
    FourNeighborsSearch7Scan(path, visited);
    FourNeighborsSearch7Lists();
    SearchStep(t, [Frame(NodeId(2), L12), Frame(NodeId(5), L145), Frame(NodeId(5), L14785), Frame(NodeId(3), L1478963), Frame(NodeId(2), L14789652)], {NodeId(1), NodeId(4), NodeId(5), NodeId(6), NodeId(7), NodeId(8), NodeId(9)}, [L14, L47, L78, L89, L96, L478965, L65, L8965],
               Frame(NodeId(2), path), [Frame(NodeId(2), L12), Frame(NodeId(5), L145), Frame(NodeId(5), L14785), Frame(NodeId(3), L1478963)], L135, visited,
               [Frame(NodeId(3), L147896523)], [L14789652, L52], [Frame(NodeId(2), L12), Frame(NodeId(5), L145), Frame(NodeId(5), L14785), Frame(NodeId(3), L1478963), Frame(NodeId(3), L147896523)], [L14, L47, L78, L89, L96, L478965, L65, L8965, L14789652, L52]);
  }

  lemma FourNeighborsSearch7Lists()
    ensures [Frame(NodeId(2), L12), Frame(NodeId(5), L145), Frame(NodeId(5), L14785), Frame(NodeId(3), L1478963), Frame(NodeId(2), L14789652)] == [Frame(NodeId(2), L12), Frame(NodeId(5), L145), Frame(NodeId(5), L14785), Frame(NodeId(3), L1478963)] + [Frame(NodeId(2), L14789652)]
    ensures [Frame(NodeId(2), L12), Frame(NodeId(5), L145), Frame(NodeId(5), L14785), Frame(NodeId(3), L1478963), Frame(NodeId(3), L147896523)] == [Frame(NodeId(2), L12), Frame(NodeId(5), L145), Frame(NodeId(5), L14785), Frame(NodeId(3), L1478963)] + [Frame(NodeId(3), L147896523)]
    ensures [L14, L47, L78, L89, L96, L478965, L65, L8965, L14789652, L52] == [L14, L47, L78, L89, L96, L478965, L65, L8965] + [L14789652, L52]
    ensures {NodeId(1), NodeId(2), NodeId(4), NodeId(5), NodeId(6), NodeId(7), NodeId(8), NodeId(9)} == {NodeId(1), NodeId(4), NodeId(5), NodeId(6), NodeId(7), NodeId(8), NodeId(9)} + {NodeId(2)}
  {
  }

  lemma FourNeighborsSearch7Scan0(path: seq<NodeId>, visited: set<NodeId>)
    requires path == L14789652 && visited == {NodeId(1), NodeId(2), NodeId(4), NodeId(5), NodeId(6), NodeId(7), NodeId(8), NodeId(9)}
    ensures Expand(path, L13, visited).0 == [Frame(NodeId(3), L147896523)]
    ensures Expand(path, L13, visited).1 == [L14789652]
  {
    ScanOne(path, visited, [], NodeId(1), L1, [], 0, L14789652,
            [], [], [], [L14789652]);
    ScanOne(path, visited, L1, NodeId(3), L13, L147896523, 0, [],
            [], [L14789652], [Frame(NodeId(3), L147896523)], [L14789652]);
  }

  lemma FourNeighborsSearch7Scan(path: seq<NodeId>, visited: set<NodeId>)
    requires path == L14789652 && visited == {NodeId(1), NodeId(2), NodeId(4), NodeId(5), NodeId(6), NodeId(7), NodeId(8), NodeId(9)}
    ensures Expand(path, L135, visited).0 == [Frame(NodeId(3), L147896523)]
    ensures Expand(path, L135, visited).1 == [L14789652, L52]
  {
    FourNeighborsSearch7Scan0(path, visited);
    ScanOne(path, visited, L13, NodeId(5), L135, [], 6, L52,
            [Frame(NodeId(3), L147896523)], [L14789652], [Frame(NodeId(3), L147896523)], [L14789652, L52]);
  }

  lemma FourNeighborsSearch8(t: Graph)
    requires Neighbors(t, NodeId(3)) == L26
    requires ValidStack(t, [Frame(NodeId(2), L12), Frame(NodeId(5), L145), Frame(NodeId(5), L14785), Frame(NodeId(3), L1478963), Frame(NodeId(3), L147896523)])
    ensures ValidStack(t, [Frame(NodeId(2), L12), Frame(NodeId(5), L145), Frame(NodeId(5), L14785), Frame(NodeId(3), L1478963)])
    ensures Dfs(t, [Frame(NodeId(2), L12), Frame(NodeId(5), L145), Frame(NodeId(5), L14785), Frame(NodeId(3), L1478963), Frame(NodeId(3), L147896523)], {NodeId(1), NodeId(2), NodeId(4), NodeId(5), NodeId(6), NodeId(7), NodeId(8), NodeId(9)}, [L14, L47, L78, L89, L96, L478965, L65, L8965, L14789652, L52])
         == Dfs(t, [Frame(NodeId(2), L12), Frame(NodeId(5), L145), Frame(NodeId(5), L14785), Frame(NodeId(3), L1478963)], {NodeId(1), NodeId(2), NodeId(3), NodeId(4), NodeId(5), NodeId(6), NodeId(7), NodeId(8), NodeId(9)}, [L14, L47, L78, L89, L96, L478965, L65, L8965, L14789652, L52, L23, L6523])
  {
    var path := L147896523;
    var visited := {NodeId(1), NodeId(2), NodeId(3), NodeId(4), NodeId(5), NodeId(6), NodeId(7), NodeId(8), NodeId(9)};
    FourNeighborsSearch8Scan(path, visited);
    FourNeighborsSearch8Lists();
    SearchStep(t, [Frame(NodeId(2), L12), Frame(NodeId(5), L145), Frame(NodeId(5), L14785), Frame(NodeId(3), L1478963), Frame(NodeId(3), L147896523)], {NodeId(1), NodeId(2), NodeId(4), NodeId(5), NodeId(6), NodeId(7), NodeId(8), NodeId(9)}, [L14, L47, L78, L89, L96, L478965, L65, L8965, L14789652, L52],
               Frame(NodeId(3), path), [Frame(NodeId(2), L12), Frame(NodeId(5), L145), Frame(NodeId(5), L14785), Frame(NodeId(3), L1478963)], L26, visited,
               [], [L23, L6523], [Frame(NodeId(2), L12), Frame(NodeId(5), L145), Frame(NodeId(5), L14785), Frame(NodeId(3), L1478963)], [L14, L47, L78, L89, L96, L478965, L65, L8965, L14789652, L52, L23, L6523]);
  }

  lemma FourNeighborsSearch8Lists()
    ensures [Frame(NodeId(2), L12), Frame(NodeId(5), L145), Frame(NodeId(5), L14785), Frame(NodeId(3), L1478963), Frame(NodeId(3), L147896523)] == [Frame(NodeId(2), L12), Frame(NodeId(5), L145), Frame(NodeId(5), L14785), Frame(NodeId(3), L1478963)] + [Frame(NodeId(3), L147896523)]
    ensures [Frame(NodeId(2), L12), Frame(NodeId(5), L145), Frame(NodeId(5), L14785), Frame(NodeId(3), L1478963)] == [Frame(NodeId(2), L12), Frame(NodeId(5), L145), Frame(NodeId(5), L14785), Frame(NodeId(3), L1478963)] + []
    ensures [L14, L47, L78, L89, L96, L478965, L65, L8965, L14789652, L52, L23, L6523] == [L14, L47, L78, L89, L96, L478965, L65, L8965, L14789652, L52] + [L23, L6523]
    ensures {NodeId(1), NodeId(2), NodeId(3), NodeId(4), NodeId(5), NodeId(6), NodeId(7), NodeId(8), NodeId(9)} == {NodeId(1), NodeId(2), NodeId(4), NodeId(5), NodeId(6), NodeId(7), NodeId(8), NodeId(9)} + {NodeId(3)}
  {
  }

  lemma FourNeighborsSearch8Closes(path: seq<NodeId>)
    requires path == L147896523
    ensures ClosesAt(path, NodeId(2), 7, L23) && ClosesAt(path, NodeId(6), 5, L6523)
  {
    assert path[..7] == L1478965 && path[..5] == L14789;
  }

  lemma FourNeighborsSearch8Scan(path: seq<NodeId>, visited: set<NodeId>)
    requires path == L147896523 && visited == {NodeId(1), NodeId(2), NodeId(3), NodeId(4), NodeId(5), NodeId(6), NodeId(7), NodeId(8), NodeId(9)}
    ensures Expand(path, L26, visited).0 == []
    ensures Expand(path, L26, visited).1 == [L23, L6523]
  {
    FourNeighborsSearch8Closes(path);
    FourNeighborsSearch8Tail(path, visited);
  }

  lemma FourNeighborsSearch8Tail(path: seq<NodeId>, visited: set<NodeId>)
    requires ClosesAt(path, NodeId(2), 7, L23) && ClosesAt(path, NodeId(6), 5, L6523)
    ensures Expand(path, L26, visited).0 == []
    ensures Expand(path, L26, visited).1 == [L23, L6523]
  {
    ScanOne(path, visited, [], NodeId(2), L2, [], 7, L23,
            [], [], [], [L23]);
    ScanOne(path, visited, L2, NodeId(6), L26, [], 5, L6523,
            [], [L23], [], [L23, L6523]);
  }

  lemma FourNeighborsSearch9(t: Graph)
    requires Neighbors(t, NodeId(3)) == L26
    requires ValidStack(t, [Frame(NodeId(2), L12), Frame(NodeId(5), L145), Frame(NodeId(5), L14785), Frame(NodeId(3), L1478963)])
    ensures ValidStack(t, [Frame(NodeId(2), L12), Frame(NodeId(5), L145), Frame(NodeId(5), L14785)])
    ensures Dfs(t, [Frame(NodeId(2), L12), Frame(NodeId(5), L145), Frame(NodeId(5), L14785), Frame(NodeId(3), L1478963)], {NodeId(1), NodeId(2), NodeId(3), NodeId(4), NodeId(5), NodeId(6), NodeId(7), NodeId(8), NodeId(9)}, [L14, L47, L78, L89, L96, L478965, L65, L8965, L14789652, L52, L23, L6523])
         == Dfs(t, [Frame(NodeId(2), L12), Frame(NodeId(5), L145), Frame(NodeId(5), L14785)], {NodeId(1), NodeId(2), NodeId(3), NodeId(4), NodeId(5), NodeId(6), NodeId(7), NodeId(8), NodeId(9)}, [L14, L47, L78, L89, L96, L478965, L65, L8965, L14789652, L52, L23, L6523, L63])
  {
    var path := L1478963;
    var visited := {NodeId(1), NodeId(2), NodeId(3), NodeId(4), NodeId(5), NodeId(6), NodeId(7), NodeId(8), NodeId(9)};
    FourNeighborsSearch9Scan(path, visited);
    FourNeighborsSearch9Lists();
    SearchStep(t, [Frame(NodeId(2), L12), Frame(NodeId(5), L145), Frame(NodeId(5), L14785), Frame(NodeId(3), L1478963)], {NodeId(1), NodeId(2), NodeId(3), NodeId(4), NodeId(5), NodeId(6), NodeId(7), NodeId(8), NodeId(9)}, [L14, L47, L78, L89, L96, L478965, L65, L8965, L14789652, L52, L23, L6523],
               Frame(NodeId(3), path), [Frame(NodeId(2), L12), Frame(NodeId(5), L145), Frame(NodeId(5), L14785)], L26, visited,
               [], [L63], [Frame(NodeId(2), L12), Frame(NodeId(5), L145), Frame(NodeId(5), L14785)], [L14, L47, L78, L89, L96, L478965, L65, L8965, L14789652, L52, L23, L6523, L63]);
  }

  lemma FourNeighborsSearch9Lists()
    ensures [Frame(NodeId(2), L12), Frame(NodeId(5), L145), Frame(NodeId(5), L14785), Frame(NodeId(3), L1478963)] == [Frame(NodeId(2), L12), Frame(NodeId(5), L145), Frame(NodeId(5), L14785)] + [Frame(NodeId(3), L1478963)]
    ensures [Frame(NodeId(2), L12), Frame(NodeId(5), L145), Frame(NodeId(5), L14785)] == [Frame(NodeId(2), L12), Frame(NodeId(5), L145), Frame(NodeId(5), L14785)] + []
    ensures [L14, L47, L78, L89, L96, L478965, L65, L8965, L14789652, L52, L23, L6523, L63] == [L14, L47, L78, L89, L96, L478965, L65, L8965, L14789652, L52, L23, L6523] + [L63]
    ensures {NodeId(1), NodeId(2), NodeId(3), NodeId(4), NodeId(5), NodeId(6), NodeId(7), NodeId(8), NodeId(9)} == {NodeId(1), NodeId(2), NodeId(3), NodeId(4), NodeId(5), NodeId(6), NodeId(7), NodeId(8), NodeId(9)} + {NodeId(3)}
  {
  }

  lemma FourNeighborsSearch9Scan(path: seq<NodeId>, visited: set<NodeId>)
    requires path == L1478963 && visited == {NodeId(1), NodeId(2), NodeId(3), NodeId(4), NodeId(5), NodeId(6), NodeId(7), NodeId(8), NodeId(9)}
    ensures Expand(path, L26, visited).0 == []
    ensures Expand(path, L26, visited).1 == [L63]
  {
    ScanOne(path, visited, [], NodeId(2), L2, [], 0, [],
            [], [], [], []);
    ScanOne(path, visited, L2, NodeId(6), L26, [], 5, L63,
            [], [], [], [L63]);
  }

  lemma FourNeighborsSearch10(t: Graph)
    requires Neighbors(t, NodeId(5)) == L2468
    requires ValidStack(t, [Frame(NodeId(2), L12), Frame(NodeId(5), L145), Frame(NodeId(5), L14785)])
    ensures ValidStack(t, [Frame(NodeId(2), L12), Frame(NodeId(5), L145)])
    ensures Dfs(t, [Frame(NodeId(2), L12), Frame(NodeId(5), L145), Frame(NodeId(5), L14785)], {NodeId(1), NodeId(2), NodeId(3), NodeId(4), NodeId(5), NodeId(6), NodeId(7), NodeId(8), NodeId(9)}, [L14, L47, L78, L89, L96, L478965, L65, L8965, L14789652, L52, L23, L6523, L63])
         == Dfs(t, [Frame(NodeId(2), L12), Frame(NodeId(5), L145)], {NodeId(1), NodeId(2), NodeId(3), NodeId(4), NodeId(5), NodeId(6), NodeId(7), NodeId(8), NodeId(9)}, [L14, L47, L78, L89, L96, L478965, L65, L8965, L14789652, L52, L23, L6523, L63, L4785, L85])
  {
    var path := L14785;
    var visited := {NodeId(1), NodeId(2), NodeId(3), NodeId(4), NodeId(5), NodeId(6), NodeId(7), NodeId(8), NodeId(9)};
    FourNeighborsSearch10Scan(path, visited);
    FourNeighborsSearch10Lists();
    SearchStep(t, [Frame(NodeId(2), L12), Frame(NodeId(5), L145), Frame(NodeId(5), L14785)], {NodeId(1), NodeId(2), NodeId(3), NodeId(4), NodeId(5), NodeId(6), NodeId(7), NodeId(8), NodeId(9)}, [L14, L47, L78, L89, L96, L478965, L65, L8965, L14789652, L52, L23, L6523, L63],
               Frame(NodeId(5), path), [Frame(NodeId(2), L12), Frame(NodeId(5), L145)], L2468, visited,
               [], [L4785, L85], [Frame(NodeId(2), L12), Frame(NodeId(5), L145)], [L14, L47, L78, L89, L96, L478965, L65, L8965, L14789652, L52, L23, L6523, L63, L4785, L85]);
  }

  lemma FourNeighborsSearch10Lists()
    ensures [Frame(NodeId(2), L12), Frame(NodeId(5), L145), Frame(NodeId(5), L14785)] == [Frame(NodeId(2), L12), Frame(NodeId(5), L145)] + [Frame(NodeId(5), L14785)]
    ensures [Frame(NodeId(2), L12), Frame(NodeId(5), L145)] == [Frame(NodeId(2), L12), Frame(NodeId(5), L145)] + []
    ensures [L14, L47, L78, L89, L96, L478965, L65, L8965, L14789652, L52, L23, L6523, L63, L4785, L85] == [L14, L47, L78, L89, L96, L478965, L65, L8965, L14789652, L52, L23, L6523, L63] + [L4785, L85]
    ensures {NodeId(1), NodeId(2), NodeId(3), NodeId(4), NodeId(5), NodeId(6), NodeId(7), NodeId(8), NodeId(9)} == {NodeId(1), NodeId(2), NodeId(3), NodeId(4), NodeId(5), NodeId(6), NodeId(7), NodeId(8), NodeId(9)} + {NodeId(5)}
  {
  }

  lemma FourNeighborsSearch10Scan0(path: seq<NodeId>, visited: set<NodeId>)
    requires path == L14785 && visited == {NodeId(1), NodeId(2), NodeId(3), NodeId(4), NodeId(5), NodeId(6), NodeId(7), NodeId(8), NodeId(9)}
    ensures Expand(path, L24, visited).0 == []
    ensures Expand(path, L24, visited).1 == [L4785]
  {
    ScanOne(path, visited, [], NodeId(2), L2, [], 0, [],
            [], [], [], []);
    ScanOne(path, visited, L2, NodeId(4), L24, [], 1, L4785,
            [], [], [], [L4785]);
  }

  lemma FourNeighborsSearch10Scan(path: seq<NodeId>, visited: set<NodeId>)
    requires path == L14785 && visited == {NodeId(1), NodeId(2), NodeId(3), NodeId(4), NodeId(5), NodeId(6), NodeId(7), NodeId(8), NodeId(9)}
    ensures Expand(path, L2468, visited).0 == []
    ensures Expand(path, L2468, visited).1 == [L4785, L85]
  {
    FourNeighborsSearch10Scan0(path, visited);
    ScanOne(path, visited, L24, NodeId(6), L246, [], 0, [],
            [], [L4785], [], [L4785]);
    ScanOne(path, visited, L246, NodeId(8), L2468, [], 3, L85,
            [], [L4785], [], [L4785, L85]);
  }

  lemma FourNeighborsSearch11(t: Graph)
    requires Neighbors(t, NodeId(5)) == L2468
    requires ValidStack(t, [Frame(NodeId(2), L12), Frame(NodeId(5), L145)])
    ensures ValidStack(t, [Frame(NodeId(2), L12)])
    ensures Dfs(t, [Frame(NodeId(2), L12), Frame(NodeId(5), L145)], {NodeId(1), NodeId(2), NodeId(3), NodeId(4), NodeId(5), NodeId(6), NodeId(7), NodeId(8), NodeId(9)}, [L14, L47, L78, L89, L96, L478965, L65, L8965, L14789652, L52, L23, L6523, L63, L4785, L85])
         == Dfs(t, [Frame(NodeId(2), L12)], {NodeId(1), NodeId(2), NodeId(3), NodeId(4), NodeId(5), NodeId(6), NodeId(7), NodeId(8), NodeId(9)}, [L14, L47, L78, L89, L96, L478965, L65, L8965, L14789652, L52, L23, L6523, L63, L4785, L85, L45])
  {
    var path := L145;
    var visited := {NodeId(1), NodeId(2), NodeId(3), NodeId(4), NodeId(5), NodeId(6), NodeId(7), NodeId(8), NodeId(9)};
    FourNeighborsSearch11Scan(path, visited);
    FourNeighborsSearch11Lists();
    SearchStep(t, [Frame(NodeId(2), L12), Frame(NodeId(5), L145)], {NodeId(1), NodeId(2), NodeId(3), NodeId(4), NodeId(5), NodeId(6), NodeId(7), NodeId(8), NodeId(9)}, [L14, L47, L78, L89, L96, L478965, L65, L8965, L14789652, L52, L23, L6523, L63, L4785, L85],
               Frame(NodeId(5), path), [Frame(NodeId(2), L12)], L2468, visited,
               [], [L45], [Frame(NodeId(2), L12)], [L14, L47, L78, L89, L96, L478965, L65, L8965, L14789652, L52, L23, L6523, L63, L4785, L85, L45]);
  }

  lemma FourNeighborsSearch11Lists()
    ensures [Frame(NodeId(2), L12), Frame(NodeId(5), L145)] == [Frame(NodeId(2), L12)] + [Frame(NodeId(5), L145)]
    ensures [Frame(NodeId(2), L12)] == [Frame(NodeId(2), L12)] + []
    ensures [L14, L47, L78, L89, L96, L478965, L65, L8965, L14789652, L52, L23, L6523, L63, L4785, L85, L45] == [L14, L47, L78, L89, L96, L478965, L65, L8965, L14789652, L52, L23, L6523, L63, L4785, L85] + [L45]
    ensures {NodeId(1), NodeId(2), NodeId(3), NodeId(4), NodeId(5), NodeId(6), NodeId(7), NodeId(8), NodeId(9)} == {NodeId(1), NodeId(2), NodeId(3), NodeId(4), NodeId(5), NodeId(6), NodeId(7), NodeId(8), NodeId(9)} + {NodeId(5)}
  {
  }

  lemma FourNeighborsSearch11Scan0(path: seq<NodeId>, visited: set<NodeId>)
    requires path == L145 && visited == {NodeId(1), NodeId(2), NodeId(3), NodeId(4), NodeId(5), NodeId(6), NodeId(7), NodeId(8), NodeId(9)}
    ensures Expand(path, L24, visited).0 == []
    ensures Expand(path, L24, visited).1 == [L45]
  {
    ScanOne(path, visited, [], NodeId(2), L2, [], 0, [],
            [], [], [], []);
    ScanOne(path, visited, L2, NodeId(4), L24, [], 1, L45,
            [], [], [], [L45]);
  }

  lemma FourNeighborsSearch11Scan(path: seq<NodeId>, visited: set<NodeId>)
    requires path == L145 && visited == {NodeId(1), NodeId(2), NodeId(3), NodeId(4), NodeId(5), NodeId(6), NodeId(7), NodeId(8), NodeId(9)}
    ensures Expand(path, L2468, visited).0 == []
    ensures Expand(path, L2468, visited).1 == [L45]
  {
    FourNeighborsSearch11Scan0(path, visited);
    ScanOne(path, visited, L24, NodeId(6), L246, [], 0, [],
            [], [L45], [], [L45]);
    ScanOne(path, visited, L246, NodeId(8), L2468, [], 0, [],
            [], [L45], [], [L45]);
  }

  lemma FourNeighborsSearch12(t: Graph)
    requires Neighbors(t, NodeId(2)) == L135
    requires ValidStack(t, [Frame(NodeId(2), L12)])
    ensures ValidStack(t, [])
    ensures Dfs(t, [Frame(NodeId(2), L12)], {NodeId(1), NodeId(2), NodeId(3), NodeId(4), NodeId(5), NodeId(6), NodeId(7), NodeId(8), NodeId(9)}, [L14, L47, L78, L89, L96, L478965, L65, L8965, L14789652, L52, L23, L6523, L63, L4785, L85, L45])
         == Dfs(t, [], {NodeId(1), NodeId(2), NodeId(3), NodeId(4), NodeId(5), NodeId(6), NodeId(7), NodeId(8), NodeId(9)}, [L14, L47, L78, L89, L96, L478965, L65, L8965, L14789652, L52, L23, L6523, L63, L4785, L85, L45, L12])
  {
    var path := L12;
    var visited := {NodeId(1), NodeId(2), NodeId(3), NodeId(4), NodeId(5), NodeId(6), NodeId(7), NodeId(8), NodeId(9)};
    FourNeighborsSearch12Scan(path, visited);
    FourNeighborsSearch12Lists();
    SearchStep(t, [Frame(NodeId(2), L12)], {NodeId(1), NodeId(2), NodeId(3), NodeId(4), NodeId(5), NodeId(6), NodeId(7), NodeId(8), NodeId(9)}, [L14, L47, L78, L89, L96, L478965, L65, L8965, L14789652, L52, L23, L6523, L63, L4785, L85, L45],
               Frame(NodeId(2), path), [], L135, visited,
               [], [L12], [], [L14, L47, L78, L89, L96, L478965, L65, L8965, L14789652, L52, L23, L6523, L63, L4785, L85, L45, L12]);
  }

  lemma FourNeighborsSearch12Lists()
    ensures [Frame(NodeId(2), L12)] == [] + [Frame(NodeId(2), L12)]
    ensures [L14, L47, L78, L89, L96, L478965, L65, L8965, L14789652, L52, L23, L6523, L63, L4785, L85, L45, L12] == [L14, L47, L78, L89, L96, L478965, L65, L8965, L14789652, L52, L23, L6523, L63, L4785, L85, L45] + [L12]
    ensures {NodeId(1), NodeId(2), NodeId(3), NodeId(4), NodeId(5), NodeId(6), NodeId(7), NodeId(8), NodeId(9)} == {NodeId(1), NodeId(2), NodeId(3), NodeId(4), NodeId(5), NodeId(6), NodeId(7), NodeId(8), NodeId(9)} + {NodeId(2)}
  {
  }

  lemma FourNeighborsSearch12Scan0(path: seq<NodeId>, visited: set<NodeId>)
    requires path == L12 && visited == {NodeId(1), NodeId(2), NodeId(3), NodeId(4), NodeId(5), NodeId(6), NodeId(7), NodeId(8), NodeId(9)}
    ensures Expand(path, L13, visited).0 == []
    ensures Expand(path, L13, visited).1 == [L12]
  {
    ScanOne(path, visited, [], NodeId(1), L1, [], 0, L12,
            [], [], [], [L12]);
    ScanOne(path, visited, L1, NodeId(3), L13, [], 0, [],
            [], [L12], [], [L12]);
  }

  lemma FourNeighborsSearch12Scan(path: seq<NodeId>, visited: set<NodeId>)
    requires path == L12 && visited == {NodeId(1), NodeId(2), NodeId(3), NodeId(4), NodeId(5), NodeId(6), NodeId(7), NodeId(8), NodeId(9)}
    ensures Expand(path, L135, visited).0 == []
    ensures Expand(path, L135, visited).1 == [L12]
  {
    FourNeighborsSearch12Scan0(path, visited);
    ScanOne(path, visited, L13, NodeId(5), L135, [], 0, [],
            [], [L12], [], [L12]);
  }

  /** The search on a topology with the lists of `FourNeighborsGraph`, starting from NodeId(1). */
  lemma FourNeighborsSearch(t: Graph)
    requires t.Keys == {NodeId(1), NodeId(2), NodeId(3), NodeId(4), NodeId(5), NodeId(6), NodeId(7), NodeId(8), NodeId(9)}
    requires t[NodeId(1)] == L24
    requires t[NodeId(2)] == L135
    requires t[NodeId(3)] == L26
    requires t[NodeId(4)] == L157
    requires t[NodeId(5)] == L2468
    requires t[NodeId(6)] == L359
    requires t[NodeId(7)] == L48
    requires t[NodeId(8)] == L579
    requires t[NodeId(9)] == L68
    ensures t != map[]
    ensures SearchCycles(t) == [L14, L47, L78, L89, L96, L478965, L65, L8965, L14789652, L52, L23, L6523, L63, L4785, L85, L45, L12]
  {
    assert NodeId(1) in t.Keys;
    MinKeyUnique(t, NodeId(1));
    StartFrameValid(t, NodeId(1));
    FourNeighborsSearch0(t);
    FourNeighborsSearch1(t);
    FourNeighborsSearch2(t);
    FourNeighborsSearch3(t);
    FourNeighborsSearch4(t);
    FourNeighborsSearch5(t);
    FourNeighborsSearch6(t);
    FourNeighborsSearch7(t);
    FourNeighborsSearch8(t);
    FourNeighborsSearch9(t);
    FourNeighborsSearch10(t);
    FourNeighborsSearch11(t);
    FourNeighborsSearch12(t);
  }

  /** Pruning the cycles found on `FourNeighborsGraph`. */
  lemma FourNeighborsPrune0(original: seq<seq<NodeId>>)
    requires |original| > 0 && original[0] == L14
    ensures PruneFrom(original, 0, [L14, L47, L78, L89, L96, L478965, L65, L8965, L14789652, L52, L23, L6523, L63, L4785, L85, L45, L12]) == PruneFrom(original, 1, [L47, L78, L89, L96, L478965, L65, L8965, L14789652, L52, L23, L6523, L63, L4785, L85, L45, L12])
  {
    var current := [L14, L47, L78, L89, L96, L478965, L65, L8965, L14789652, L52, L23, L6523, L63, L4785, L85, L45, L12];
    var x := L14;
    FourNeighborsPrune0Test(current, x);
    FourNeighborsPrune0Without(current, x);
    PruneStep(original, 0, x, current, [L47, L78, L89, L96, L478965, L65, L8965, L14789652, L52, L23, L6523, L63, L4785, L85, L45, L12]);
  }

  lemma FourNeighborsPrune0Test(current: seq<seq<NodeId>>, x: seq<NodeId>)
    requires current == [L14, L47, L78, L89, L96, L478965, L65, L8965, L14789652, L52, L23, L6523, L63, L4785, L85, L45, L12] && x == L14
    ensures ContainedElsewhere(current, x)
  {
    ContainedAt(current, x, 8, L14789652);
  }

  lemma FourNeighborsPrune0Without(current: seq<seq<NodeId>>, x: seq<NodeId>)
    requires current == [L14, L47, L78, L89, L96, L478965, L65, L8965, L14789652, L52, L23, L6523, L63, L4785, L85, L45, L12] && x == L14
    ensures Without(current, x) == [L47, L78, L89, L96, L478965, L65, L8965, L14789652, L52, L23, L6523, L63, L4785, L85, L45, L12]
  {
    forall j | 0 <= j < |current| && j != 0 ensures current[j] != x {
      if j == 1 {
        assert current[j][0] != x[0];
      } else if j == 2 {
        assert current[j][0] != x[0];
      } else if j == 3 {
        assert current[j][0] != x[0];
      } else if j == 4 {
        assert current[j][0] != x[0];
      } else if j == 5 {
        assert |current[j]| != |x|;
      } else if j == 6 {
        assert current[j][0] != x[0];
      } else if j == 7 {
        assert |current[j]| != |x|;
      } else if j == 8 {
        assert |current[j]| != |x|;
      } else if j == 9 {
        assert current[j][0] != x[0];
      } else if j == 10 {
        assert current[j][0] != x[0];
      } else if j == 11 {
        assert |current[j]| != |x|;
      } else if j == 12 {
        assert current[j][0] != x[0];
      } else if j == 13 {
        assert |current[j]| != |x|;
      } else if j == 14 {
        assert current[j][0] != x[0];
      } else if j == 15 {
        assert current[j][0] != x[0];
      } else {
        assert current[j][1] != x[1];
      }
    }
    WithoutOne(current, x, 0);
  }

  lemma FourNeighborsPrune1(original: seq<seq<NodeId>>)
    requires |original| > 1 && original[1] == L47
    ensures PruneFrom(original, 1, [L47, L78, L89, L96, L478965, L65, L8965, L14789652, L52, L23, L6523, L63, L4785, L85, L45, L12]) == PruneFrom(original, 2, [L78, L89, L96, L478965, L65, L8965, L14789652, L52, L23, L6523, L63, L4785, L85, L45, L12])
  {
    var current := [L47, L78, L89, L96, L478965, L65, L8965, L14789652, L52, L23, L6523, L63, L4785, L85, L45, L12];
    var x := L47;
    FourNeighborsPrune1Test(current, x);
    FourNeighborsPrune1Without(current, x);
    PruneStep(original, 1, x, current, [L78, L89, L96, L478965, L65, L8965, L14789652, L52, L23, L6523, L63, L4785, L85, L45, L12]);
  }

  lemma FourNeighborsPrune1Test(current: seq<seq<NodeId>>, x: seq<NodeId>)
    requires current == [L47, L78, L89, L96, L478965, L65, L8965, L14789652, L52, L23, L6523, L63, L4785, L85, L45, L12] && x == L47
    ensures ContainedElsewhere(current, x)
  {
    ContainedAt(current, x, 4, L478965);
  }

  lemma FourNeighborsPrune1Without(current: seq<seq<NodeId>>, x: seq<NodeId>)
    requires current == [L47, L78, L89, L96, L478965, L65, L8965, L14789652, L52, L23, L6523, L63, L4785, L85, L45, L12] && x == L47
    ensures Without(current, x) == [L78, L89, L96, L478965, L65, L8965, L14789652, L52, L23, L6523, L63, L4785, L85, L45, L12]
  {
    forall j | 0 <= j < |current| && j != 0 ensures current[j] != x {
      if j == 1 {
        assert current[j][0] != x[0];
      } else if j == 2 {
        assert current[j][0] != x[0];
      } else if j == 3 {
        assert current[j][0] != x[0];
      } else if j == 4 {
        assert |current[j]| != |x|;
      } else if j == 5 {
        assert current[j][0] != x[0];
      } else if j == 6 {
        assert |current[j]| != |x|;
      } else if j == 7 {
        assert |current[j]| != |x|;
      } else if j == 8 {
        assert current[j][0] != x[0];
      } else if j == 9 {
        assert current[j][0] != x[0];
      } else if j == 10 {
        assert |current[j]| != |x|;
      } else if j == 11 {
        assert current[j][0] != x[0];
      } else if j == 12 {
        assert |current[j]| != |x|;
      } else if j == 13 {
        assert current[j][0] != x[0];
      } else if j == 14 {
        assert current[j][1] != x[1];
      } else {
        assert current[j][0] != x[0];
      }
    }
    WithoutOne(current, x, 0);
  }

  lemma FourNeighborsPrune2(original: seq<seq<NodeId>>)
    requires |original| > 2 && original[2] == L78
    ensures PruneFrom(original, 2, [L78, L89, L96, L478965, L65, L8965, L14789652, L52, L23, L6523, L63, L4785, L85, L45, L12]) == PruneFrom(original, 3, [L89, L96, L478965, L65, L8965, L14789652, L52, L23, L6523, L63, L4785, L85, L45, L12])
  {
    var current := [L78, L89, L96, L478965, L65, L8965, L14789652, L52, L23, L6523, L63, L4785, L85, L45, L12];
    var x := L78;
    FourNeighborsPrune2Test(current, x);
    FourNeighborsPrune2Without(current, x);
    PruneStep(original, 2, x, current, [L89, L96, L478965, L65, L8965, L14789652, L52, L23, L6523, L63, L4785, L85, L45, L12]);
  }

  lemma FourNeighborsPrune2Test(current: seq<seq<NodeId>>, x: seq<NodeId>)
    requires current == [L78, L89, L96, L478965, L65, L8965, L14789652, L52, L23, L6523, L63, L4785, L85, L45, L12] && x == L78
    ensures ContainedElsewhere(current, x)
  {
    ContainedAt(current, x, 3, L478965);
  }

  lemma FourNeighborsPrune2Without(current: seq<seq<NodeId>>, x: seq<NodeId>)
    requires current == [L78, L89, L96, L478965, L65, L8965, L14789652, L52, L23, L6523, L63, L4785, L85, L45, L12] && x == L78
    ensures Without(current, x) == [L89, L96, L478965, L65, L8965, L14789652, L52, L23, L6523, L63, L4785, L85, L45, L12]
  {
    forall j | 0 <= j < |current| && j != 0 ensures current[j] != x {
      if j == 1 {
        assert current[j][0] != x[0];
      } else if j == 2 {
        assert current[j][0] != x[0];
      } else if j == 3 {
        assert |current[j]| != |x|;
      } else if j == 4 {
        assert current[j][0] != x[0];
      } else if j == 5 {
        assert |current[j]| != |x|;
      } else if j == 6 {
        assert |current[j]| != |x|;
      } else if j == 7 {
        assert current[j][0] != x[0];
      } else if j == 8 {
        assert current[j][0] != x[0];
      } else if j == 9 {
        assert |current[j]| != |x|;
      } else if j == 10 {
        assert current[j][0] != x[0];
      } else if j == 11 {
        assert |current[j]| != |x|;
      } else if j == 12 {
        assert current[j][0] != x[0];
      } else if j == 13 {
        assert current[j][0] != x[0];
      } else {
        assert current[j][0] != x[0];
      }
    }
    WithoutOne(current, x, 0);
  }

  lemma FourNeighborsPrune3(original: seq<seq<NodeId>>)
    requires |original| > 3 && original[3] == L89
    ensures PruneFrom(original, 3, [L89, L96, L478965, L65, L8965, L14789652, L52, L23, L6523, L63, L4785, L85, L45, L12]) == PruneFrom(original, 4, [L96, L478965, L65, L8965, L14789652, L52, L23, L6523, L63, L4785, L85, L45, L12])
  {
    var current := [L89, L96, L478965, L65, L8965, L14789652, L52, L23, L6523, L63, L4785, L85, L45, L12];
    var x := L89;
    FourNeighborsPrune3Test(current, x);
    FourNeighborsPrune3Without(current, x);
    PruneStep(original, 3, x, current, [L96, L478965, L65, L8965, L14789652, L52, L23, L6523, L63, L4785, L85, L45, L12]);
  }

  lemma FourNeighborsPrune3Test(current: seq<seq<NodeId>>, x: seq<NodeId>)
    requires current == [L89, L96, L478965, L65, L8965, L14789652, L52, L23, L6523, L63, L4785, L85, L45, L12] && x == L89
    ensures ContainedElsewhere(current, x)
  {
    ContainedAt(current, x, 2, L478965);
  }

  lemma FourNeighborsPrune3Without(current: seq<seq<NodeId>>, x: seq<NodeId>)
    requires current == [L89, L96, L478965, L65, L8965, L14789652, L52, L23, L6523, L63, L4785, L85, L45, L12] && x == L89
    ensures Without(current, x) == [L96, L478965, L65, L8965, L14789652, L52, L23, L6523, L63, L4785, L85, L45, L12]
  {
    forall j | 0 <= j < |current| && j != 0 ensures current[j] != x {
      if j == 1 {
        assert current[j][0] != x[0];
      } else if j == 2 {
        assert |current[j]| != |x|;
      } else if j == 3 {
        assert current[j][0] != x[0];
      } else if j == 4 {
        assert |current[j]| != |x|;
      } else if j == 5 {
        assert |current[j]| != |x|;
      } else if j == 6 {
        assert current[j][0] != x[0];
      } else if j == 7 {
        assert current[j][0] != x[0];
      } else if j == 8 {
        assert |current[j]| != |x|;
      } else if j == 9 {
        assert current[j][0] != x[0];
      } else if j == 10 {
        assert |current[j]| != |x|;
      } else if j == 11 {
        assert current[j][1] != x[1];
      } else if j == 12 {
        assert current[j][0] != x[0];
      } else {
        assert current[j][0] != x[0];
      }
    }
    WithoutOne(current, x, 0);
  }

  lemma FourNeighborsPrune4(original: seq<seq<NodeId>>)
    requires |original| > 4 && original[4] == L96
    ensures PruneFrom(original, 4, [L96, L478965, L65, L8965, L14789652, L52, L23, L6523, L63, L4785, L85, L45, L12]) == PruneFrom(original, 5, [L478965, L65, L8965, L14789652, L52, L23, L6523, L63, L4785, L85, L45, L12])
  {
    var current := [L96, L478965, L65, L8965, L14789652, L52, L23, L6523, L63, L4785, L85, L45, L12];
    var x := L96;
    FourNeighborsPrune4Test(current, x);
    FourNeighborsPrune4Without(current, x);
    PruneStep(original, 4, x, current, [L478965, L65, L8965, L14789652, L52, L23, L6523, L63, L4785, L85, L45, L12]);
  }

  lemma FourNeighborsPrune4Test(current: seq<seq<NodeId>>, x: seq<NodeId>)
    requires current == [L96, L478965, L65, L8965, L14789652, L52, L23, L6523, L63, L4785, L85, L45, L12] && x == L96
    ensures ContainedElsewhere(current, x)
  {
    ContainedAt(current, x, 1, L478965);
  }

  lemma FourNeighborsPrune4Without(current: seq<seq<NodeId>>, x: seq<NodeId>)
    requires current == [L96, L478965, L65, L8965, L14789652, L52, L23, L6523, L63, L4785, L85, L45, L12] && x == L96
    ensures Without(current, x) == [L478965, L65, L8965, L14789652, L52, L23, L6523, L63, L4785, L85, L45, L12]
  {
    forall j | 0 <= j < |current| && j != 0 ensures current[j] != x {
      if j == 1 {
        assert |current[j]| != |x|;
      } else if j == 2 {
        assert current[j][0] != x[0];
      } else if j == 3 {
        assert |current[j]| != |x|;
      } else if j == 4 {
        assert |current[j]| != |x|;
      } else if j == 5 {
        assert current[j][0] != x[0];
      } else if j == 6 {
        assert current[j][0] != x[0];
      } else if j == 7 {
        assert |current[j]| != |x|;
      } else if j == 8 {
        assert current[j][0] != x[0];
      } else if j == 9 {
        assert |current[j]| != |x|;
      } else if j == 10 {
        assert current[j][0] != x[0];
      } else if j == 11 {
        assert current[j][0] != x[0];
      } else {
        assert current[j][0] != x[0];
      }
    }
    WithoutOne(current, x, 0);
  }

  lemma FourNeighborsPrune5(original: seq<seq<NodeId>>)
    requires |original| > 5 && original[5] == L478965
    ensures PruneFrom(original, 5, [L478965, L65, L8965, L14789652, L52, L23, L6523, L63, L4785, L85, L45, L12]) == PruneFrom(original, 6, [L65, L8965, L14789652, L52, L23, L6523, L63, L4785, L85, L45, L12])
  {
    var current := [L478965, L65, L8965, L14789652, L52, L23, L6523, L63, L4785, L85, L45, L12];
    var x := L478965;
    FourNeighborsPrune5Test(current, x);
    FourNeighborsPrune5Without(current, x);
    PruneStep(original, 5, x, current, [L65, L8965, L14789652, L52, L23, L6523, L63, L4785, L85, L45, L12]);
  }

  lemma FourNeighborsPrune5Test(current: seq<seq<NodeId>>, x: seq<NodeId>)
    requires current == [L478965, L65, L8965, L14789652, L52, L23, L6523, L63, L4785, L85, L45, L12] && x == L478965
    ensures ContainedElsewhere(current, x)
  {
    ContainedAt(current, x, 3, L14789652);
  }

  lemma FourNeighborsPrune5Without(current: seq<seq<NodeId>>, x: seq<NodeId>)
    requires current == [L478965, L65, L8965, L14789652, L52, L23, L6523, L63, L4785, L85, L45, L12] && x == L478965
    ensures Without(current, x) == [L65, L8965, L14789652, L52, L23, L6523, L63, L4785, L85, L45, L12]
  {
    forall j | 0 <= j < |current| && j != 0 ensures current[j] != x {
      if j == 1 {
        assert |current[j]| != |x|;
      } else if j == 2 {
        assert |current[j]| != |x|;
      } else if j == 3 {
        assert |current[j]| != |x|;
      } else if j == 4 {
        assert |current[j]| != |x|;
      } else if j == 5 {
        assert |current[j]| != |x|;
      } else if j == 6 {
        assert |current[j]| != |x|;
      } else if j == 7 {
        assert |current[j]| != |x|;
      } else if j == 8 {
        assert |current[j]| != |x|;
      } else if j == 9 {
        assert |current[j]| != |x|;
      } else if j == 10 {
        assert |current[j]| != |x|;
      } else {
        assert |current[j]| != |x|;
      }
    }
    WithoutOne(current, x, 0);
  }

  lemma FourNeighborsPrune6(original: seq<seq<NodeId>>)
    requires |original| > 6 && original[6] == L65
    ensures PruneFrom(original, 6, [L65, L8965, L14789652, L52, L23, L6523, L63, L4785, L85, L45, L12]) == PruneFrom(original, 7, [L8965, L14789652, L52, L23, L6523, L63, L4785, L85, L45, L12])
  {
    var current := [L65, L8965, L14789652, L52, L23, L6523, L63, L4785, L85, L45, L12];
    var x := L65;
    FourNeighborsPrune6Test(current, x);
    FourNeighborsPrune6Without(current, x);
    PruneStep(original, 6, x, current, [L8965, L14789652, L52, L23, L6523, L63, L4785, L85, L45, L12]);
  }

  lemma FourNeighborsPrune6Test(current: seq<seq<NodeId>>, x: seq<NodeId>)
    requires current == [L65, L8965, L14789652, L52, L23, L6523, L63, L4785, L85, L45, L12] && x == L65
    ensures ContainedElsewhere(current, x)
  {
    ContainedAt(current, x, 1, L8965);
  }

  lemma FourNeighborsPrune6Without(current: seq<seq<NodeId>>, x: seq<NodeId>)
    requires current == [L65, L8965, L14789652, L52, L23, L6523, L63, L4785, L85, L45, L12] && x == L65
    ensures Without(current, x) == [L8965, L14789652, L52, L23, L6523, L63, L4785, L85, L45, L12]
  {
    forall j | 0 <= j < |current| && j != 0 ensures current[j] != x {
      if j == 1 {
        assert |current[j]| != |x|;
      } else if j == 2 {
        assert |current[j]| != |x|;
      } else if j == 3 {
        assert current[j][0] != x[0];
      } else if j == 4 {
        assert current[j][0] != x[0];
      } else if j == 5 {
        assert |current[j]| != |x|;
      } else if j == 6 {
        assert current[j][1] != x[1];
      } else if j == 7 {
        assert |current[j]| != |x|;
      } else if j == 8 {
        assert current[j][0] != x[0];
      } else if j == 9 {
        assert current[j][0] != x[0];
      } else {
        assert current[j][0] != x[0];
      }
    }
    WithoutOne(current, x, 0);
  }

  lemma FourNeighborsPrune7(original: seq<seq<NodeId>>)
    requires |original| > 7 && original[7] == L8965
    ensures PruneFrom(original, 7, [L8965, L14789652, L52, L23, L6523, L63, L4785, L85, L45, L12]) == PruneFrom(original, 8, [L14789652, L52, L23, L6523, L63, L4785, L85, L45, L12])
  {
    var current := [L8965, L14789652, L52, L23, L6523, L63, L4785, L85, L45, L12];
    var x := L8965;
    FourNeighborsPrune7Test(current, x);
    FourNeighborsPrune7Without(current, x);
    PruneStep(original, 7, x, current, [L14789652, L52, L23, L6523, L63, L4785, L85, L45, L12]);
  }

  lemma FourNeighborsPrune7Test(current: seq<seq<NodeId>>, x: seq<NodeId>)
    requires current == [L8965, L14789652, L52, L23, L6523, L63, L4785, L85, L45, L12] && x == L8965
    ensures ContainedElsewhere(current, x)
  {
    ContainedAt(current, x, 1, L14789652);
  }

  lemma FourNeighborsPrune7Without(current: seq<seq<NodeId>>, x: seq<NodeId>)
    requires current == [L8965, L14789652, L52, L23, L6523, L63, L4785, L85, L45, L12] && x == L8965
    ensures Without(current, x) == [L14789652, L52, L23, L6523, L63, L4785, L85, L45, L12]
  {
    forall j | 0 <= j < |current| && j != 0 ensures current[j] != x {
      if j == 1 {
        assert |current[j]| != |x|;
      } else if j == 2 {
        assert |current[j]| != |x|;
      } else if j == 3 {
        assert |current[j]| != |x|;
      } else if j == 4 {
        assert current[j][0] != x[0];
      } else if j == 5 {
        assert |current[j]| != |x|;
      } else if j == 6 {
        assert current[j][0] != x[0];
      } else if j == 7 {
        assert |current[j]| != |x|;
      } else if j == 8 {
        assert |current[j]| != |x|;
      } else {
        assert |current[j]| != |x|;
      }
    }
    WithoutOne(current, x, 0);
  }

  lemma FourNeighborsPrune8(original: seq<seq<NodeId>>)
    requires |original| > 8 && original[8] == L14789652
    ensures PruneFrom(original, 8, [L14789652, L52, L23, L6523, L63, L4785, L85, L45, L12]) == PruneFrom(original, 9, [L14789652, L52, L23, L6523, L63, L4785, L85, L45, L12])
  {
    var current := [L14789652, L52, L23, L6523, L63, L4785, L85, L45, L12];
    var x := L14789652;
    FourNeighborsPrune8Test(current, x);
    PruneStep(original, 8, x, current, [L14789652, L52, L23, L6523, L63, L4785, L85, L45, L12]);
  }

  lemma FourNeighborsPrune8Test(current: seq<seq<NodeId>>, x: seq<NodeId>)
    requires current == [L14789652, L52, L23, L6523, L63, L4785, L85, L45, L12] && x == L14789652
    ensures !ContainedElsewhere(current, x)
  {
    FourNeighborsPrune8Front(current, x);
    NoneContainsNext(current, x, 5, NodeId(1));
    NoneContainsNext(current, x, 6, NodeId(1));
    NoneContainsNext(current, x, 7, NodeId(1));
    NoneContainsNext(current, x, 8, NodeId(4));
    NotContained(current, x);
  }

  lemma FourNeighborsPrune8Front(current: seq<seq<NodeId>>, x: seq<NodeId>)
    requires current == [L14789652, L52, L23, L6523, L63, L4785, L85, L45, L12] && x == L14789652
    ensures NoneContains(current, x, 5)
  {
    NoneContainsSelf(current, x, 0);
    NoneContainsNext(current, x, 1, NodeId(1));
    NoneContainsNext(current, x, 2, NodeId(1));
    NoneContainsNext(current, x, 3, NodeId(1));
    NoneContainsNext(current, x, 4, NodeId(1));
  }

  lemma FourNeighborsPrune9(original: seq<seq<NodeId>>)
    requires |original| > 9 && original[9] == L52
    ensures PruneFrom(original, 9, [L14789652, L52, L23, L6523, L63, L4785, L85, L45, L12]) == PruneFrom(original, 10, [L14789652, L23, L6523, L63, L4785, L85, L45, L12])
  {
    var current := [L14789652, L52, L23, L6523, L63, L4785, L85, L45, L12];
    var x := L52;
    FourNeighborsPrune9Test(current, x);
    FourNeighborsPrune9Without(current, x);
    PruneStep(original, 9, x, current, [L14789652, L23, L6523, L63, L4785, L85, L45, L12]);
  }

  lemma FourNeighborsPrune9Test(current: seq<seq<NodeId>>, x: seq<NodeId>)
    requires current == [L14789652, L52, L23, L6523, L63, L4785, L85, L45, L12] && x == L52
    ensures ContainedElsewhere(current, x)
  {
    ContainedAt(current, x, 0, L14789652);
  }

  lemma FourNeighborsPrune9Without(current: seq<seq<NodeId>>, x: seq<NodeId>)
    requires current == [L14789652, L52, L23, L6523, L63, L4785, L85, L45, L12] && x == L52
    ensures Without(current, x) == [L14789652, L23, L6523, L63, L4785, L85, L45, L12]
  {
    forall j | 0 <= j < |current| && j != 1 ensures current[j] != x {
      if j == 0 {
        assert |current[j]| != |x|;
      } else if j == 2 {
        assert current[j][0] != x[0];
      } else if j == 3 {
        assert |current[j]| != |x|;
      } else if j == 4 {
        assert current[j][0] != x[0];
      } else if j == 5 {
        assert |current[j]| != |x|;
      } else if j == 6 {
        assert current[j][0] != x[0];
      } else if j == 7 {
        assert current[j][0] != x[0];
      } else {
        assert current[j][0] != x[0];
      }
    }
    WithoutOne(current, x, 1);
  }

  lemma FourNeighborsPrune10(original: seq<seq<NodeId>>)
    requires |original| > 10 && original[10] == L23
    ensures PruneFrom(original, 10, [L14789652, L23, L6523, L63, L4785, L85, L45, L12]) == PruneFrom(original, 11, [L14789652, L6523, L63, L4785, L85, L45, L12])
  {
    var current := [L14789652, L23, L6523, L63, L4785, L85, L45, L12];
    var x := L23;
    FourNeighborsPrune10Test(current, x);
    FourNeighborsPrune10Without(current, x);
    PruneStep(original, 10, x, current, [L14789652, L6523, L63, L4785, L85, L45, L12]);
  }

  lemma FourNeighborsPrune10Test(current: seq<seq<NodeId>>, x: seq<NodeId>)
    requires current == [L14789652, L23, L6523, L63, L4785, L85, L45, L12] && x == L23
    ensures ContainedElsewhere(current, x)
  {
    ContainedAt(current, x, 2, L6523);
  }

  lemma FourNeighborsPrune10Without(current: seq<seq<NodeId>>, x: seq<NodeId>)
    requires current == [L14789652, L23, L6523, L63, L4785, L85, L45, L12] && x == L23
    ensures Without(current, x) == [L14789652, L6523, L63, L4785, L85, L45, L12]
  {
    forall j | 0 <= j < |current| && j != 1 ensures current[j] != x {
      if j == 0 {
        assert |current[j]| != |x|;
      } else if j == 2 {
        assert |current[j]| != |x|;
      } else if j == 3 {
        assert current[j][0] != x[0];
      } else if j == 4 {
        assert |current[j]| != |x|;
      } else if j == 5 {
        assert current[j][0] != x[0];
      } else if j == 6 {
        assert current[j][0] != x[0];
      } else {
        assert current[j][0] != x[0];
      }
    }
    WithoutOne(current, x, 1);
  }

  lemma FourNeighborsPrune11(original: seq<seq<NodeId>>)
    requires |original| > 11 && original[11] == L6523
    ensures PruneFrom(original, 11, [L14789652, L6523, L63, L4785, L85, L45, L12]) == PruneFrom(original, 12, [L14789652, L6523, L63, L4785, L85, L45, L12])
  {
    var current := [L14789652, L6523, L63, L4785, L85, L45, L12];
    var x := L6523;
    FourNeighborsPrune11Test(current, x);
    PruneStep(original, 11, x, current, [L14789652, L6523, L63, L4785, L85, L45, L12]);
  }

  lemma FourNeighborsPrune11Test(current: seq<seq<NodeId>>, x: seq<NodeId>)
    requires current == [L14789652, L6523, L63, L4785, L85, L45, L12] && x == L6523
    ensures !ContainedElsewhere(current, x)
  {
    NoneContainsNext(current, x, 0, NodeId(3));
    NoneContainsSelf(current, x, 1);
    NoneContainsNext(current, x, 2, NodeId(5));
    NoneContainsNext(current, x, 3, NodeId(6));
    NoneContainsNext(current, x, 4, NodeId(6));
    NoneContainsNext(current, x, 5, NodeId(6));
    NoneContainsNext(current, x, 6, NodeId(6));
    NotContained(current, x);
  }

  lemma FourNeighborsPrune12(original: seq<seq<NodeId>>)
    requires |original| > 12 && original[12] == L63
    ensures PruneFrom(original, 12, [L14789652, L6523, L63, L4785, L85, L45, L12]) == PruneFrom(original, 13, [L14789652, L6523, L4785, L85, L45, L12])
  {
    var current := [L14789652, L6523, L63, L4785, L85, L45, L12];
    var x := L63;
    FourNeighborsPrune12Test(current, x);
    FourNeighborsPrune12Without(current, x);
    PruneStep(original, 12, x, current, [L14789652, L6523, L4785, L85, L45, L12]);
  }

  lemma FourNeighborsPrune12Test(current: seq<seq<NodeId>>, x: seq<NodeId>)
    requires current == [L14789652, L6523, L63, L4785, L85, L45, L12] && x == L63
    ensures ContainedElsewhere(current, x)
  {
    ContainedAt(current, x, 1, L6523);
  }

  lemma FourNeighborsPrune12Without(current: seq<seq<NodeId>>, x: seq<NodeId>)
    requires current == [L14789652, L6523, L63, L4785, L85, L45, L12] && x == L63
    ensures Without(current, x) == [L14789652, L6523, L4785, L85, L45, L12]
  {
    forall j | 0 <= j < |current| && j != 2 ensures current[j] != x {
      if j == 0 {
        assert |current[j]| != |x|;
      } else if j == 1 {
        assert |current[j]| != |x|;
      } else if j == 3 {
        assert |current[j]| != |x|;
      } else if j == 4 {
        assert current[j][0] != x[0];
      } else if j == 5 {
        assert current[j][0] != x[0];
      } else {
        assert current[j][0] != x[0];
      }
    }
    WithoutOne(current, x, 2);
  }

  lemma FourNeighborsPrune13(original: seq<seq<NodeId>>)
    requires |original| > 13 && original[13] == L4785
    ensures PruneFrom(original, 13, [L14789652, L6523, L4785, L85, L45, L12]) == PruneFrom(original, 14, [L14789652, L6523, L85, L45, L12])
  {
    var current := [L14789652, L6523, L4785, L85, L45, L12];
    var x := L4785;
    FourNeighborsPrune13Test(current, x);
    FourNeighborsPrune13Without(current, x);
    PruneStep(original, 13, x, current, [L14789652, L6523, L85, L45, L12]);
  }

  lemma FourNeighborsPrune13Test(current: seq<seq<NodeId>>, x: seq<NodeId>)
    requires current == [L14789652, L6523, L4785, L85, L45, L12] && x == L4785
    ensures ContainedElsewhere(current, x)
  {
    ContainedAt(current, x, 0, L14789652);
  }

  lemma FourNeighborsPrune13Without(current: seq<seq<NodeId>>, x: seq<NodeId>)
    requires current == [L14789652, L6523, L4785, L85, L45, L12] && x == L4785
    ensures Without(current, x) == [L14789652, L6523, L85, L45, L12]
  {
    forall j | 0 <= j < |current| && j != 2 ensures current[j] != x {
      if j == 0 {
        assert |current[j]| != |x|;
      } else if j == 1 {
        assert current[j][0] != x[0];
      } else if j == 3 {
        assert |current[j]| != |x|;
      } else if j == 4 {
        assert |current[j]| != |x|;
      } else {
        assert |current[j]| != |x|;
      }
    }
    WithoutOne(current, x, 2);
  }

  lemma FourNeighborsPrune14(original: seq<seq<NodeId>>)
    requires |original| > 14 && original[14] == L85
    ensures PruneFrom(original, 14, [L14789652, L6523, L85, L45, L12]) == PruneFrom(original, 15, [L14789652, L6523, L45, L12])
  {
    var current := [L14789652, L6523, L85, L45, L12];
    var x := L85;
    FourNeighborsPrune14Test(current, x);
    FourNeighborsPrune14Without(current, x);
    PruneStep(original, 14, x, current, [L14789652, L6523, L45, L12]);
  }

  lemma FourNeighborsPrune14Test(current: seq<seq<NodeId>>, x: seq<NodeId>)
    requires current == [L14789652, L6523, L85, L45, L12] && x == L85
    ensures ContainedElsewhere(current, x)
  {
    ContainedAt(current, x, 0, L14789652);
  }

  lemma FourNeighborsPrune14Without(current: seq<seq<NodeId>>, x: seq<NodeId>)
    requires current == [L14789652, L6523, L85, L45, L12] && x == L85
    ensures Without(current, x) == [L14789652, L6523, L45, L12]
  {
    forall j | 0 <= j < |current| && j != 2 ensures current[j] != x {
      if j == 0 {
        assert |current[j]| != |x|;
      } else if j == 1 {
        assert |current[j]| != |x|;
      } else if j == 3 {
        assert current[j][0] != x[0];
      } else {
        assert current[j][0] != x[0];
      }
    }
    WithoutOne(current, x, 2);
  }

  lemma FourNeighborsPrune15(original: seq<seq<NodeId>>)
    requires |original| > 15 && original[15] == L45
    ensures PruneFrom(original, 15, [L14789652, L6523, L45, L12]) == PruneFrom(original, 16, [L14789652, L6523, L12])
  {
    var current := [L14789652, L6523, L45, L12];
    var x := L45;
    FourNeighborsPrune15Test(current, x);
    FourNeighborsPrune15Without(current, x);
    PruneStep(original, 15, x, current, [L14789652, L6523, L12]);
  }

  lemma FourNeighborsPrune15Test(current: seq<seq<NodeId>>, x: seq<NodeId>)
    requires current == [L14789652, L6523, L45, L12] && x == L45
    ensures ContainedElsewhere(current, x)
  {
    ContainedAt(current, x, 0, L14789652);
  }

  lemma FourNeighborsPrune15Without(current: seq<seq<NodeId>>, x: seq<NodeId>)
    requires current == [L14789652, L6523, L45, L12] && x == L45
    ensures Without(current, x) == [L14789652, L6523, L12]
  {
    forall j | 0 <= j < |current| && j != 2 ensures current[j] != x {
      if j == 0 {
        assert |current[j]| != |x|;
      } else if j == 1 {
        assert |current[j]| != |x|;
      } else {
        assert current[j][0] != x[0];
      }
    }
    WithoutOne(current, x, 2);
  }

  lemma FourNeighborsPrune16(original: seq<seq<NodeId>>)
    requires |original| > 16 && original[16] == L12
    ensures PruneFrom(original, 16, [L14789652, L6523, L12]) == PruneFrom(original, 17, [L14789652, L6523])
  {
    var current := [L14789652, L6523, L12];
    var x := L12;
    FourNeighborsPrune16Test(current, x);
    FourNeighborsPrune16Without(current, x);
    PruneStep(original, 16, x, current, [L14789652, L6523]);
  }

  lemma FourNeighborsPrune16Test(current: seq<seq<NodeId>>, x: seq<NodeId>)
    requires current == [L14789652, L6523, L12] && x == L12
    ensures ContainedElsewhere(current, x)
  {
    ContainedAt(current, x, 0, L14789652);
  }

  lemma FourNeighborsPrune16Without(current: seq<seq<NodeId>>, x: seq<NodeId>)
    requires current == [L14789652, L6523, L12] && x == L12
    ensures Without(current, x) == [L14789652, L6523]
  {
    forall j | 0 <= j < |current| && j != 2 ensures current[j] != x {
      if j == 0 {
        assert |current[j]| != |x|;
      } else {
        assert |current[j]| != |x|;
      }
    }
    WithoutOne(current, x, 2);
  }

  lemma FourNeighborsPruneFrom16(original: seq<seq<NodeId>>)
    requires original == [L14, L47, L78, L89, L96, L478965, L65, L8965, L14789652, L52, L23, L6523, L63, L4785, L85, L45, L12]
    ensures PruneFrom(original, 16, [L14789652, L6523, L12]) == [L14789652, L6523]
  {
    FourNeighborsPrune16(original);
  }

  lemma FourNeighborsPruneFrom15(original: seq<seq<NodeId>>)
    requires original == [L14, L47, L78, L89, L96, L478965, L65, L8965, L14789652, L52, L23, L6523, L63, L4785, L85, L45, L12]
    ensures PruneFrom(original, 15, [L14789652, L6523, L45, L12]) == [L14789652, L6523]
  {
    FourNeighborsPrune15(original);
    FourNeighborsPruneFrom16(original);
  }

  lemma FourNeighborsPruneFrom14(original: seq<seq<NodeId>>)
    requires original == [L14, L47, L78, L89, L96, L478965, L65, L8965, L14789652, L52, L23, L6523, L63, L4785, L85, L45, L12]
    ensures PruneFrom(original, 14, [L14789652, L6523, L85, L45, L12]) == [L14789652, L6523]
  {
    FourNeighborsPrune14(original);
    FourNeighborsPruneFrom15(original);
  }

  lemma FourNeighborsPruneFrom13(original: seq<seq<NodeId>>)
    requires original == [L14, L47, L78, L89, L96, L478965, L65, L8965, L14789652, L52, L23, L6523, L63, L4785, L85, L45, L12]
    ensures PruneFrom(original, 13, [L14789652, L6523, L4785, L85, L45, L12]) == [L14789652, L6523]
  {
    FourNeighborsPrune13(original);
    FourNeighborsPruneFrom14(original);
  }

  lemma FourNeighborsPruneFrom12(original: seq<seq<NodeId>>)
    requires original == [L14, L47, L78, L89, L96, L478965, L65, L8965, L14789652, L52, L23, L6523, L63, L4785, L85, L45, L12]
    ensures PruneFrom(original, 12, [L14789652, L6523, L63, L4785, L85, L45, L12]) == [L14789652, L6523]
  {
    FourNeighborsPrune12(original);
    FourNeighborsPruneFrom13(original);
  }

  lemma FourNeighborsPruneFrom11(original: seq<seq<NodeId>>)
    requires original == [L14, L47, L78, L89, L96, L478965, L65, L8965, L14789652, L52, L23, L6523, L63, L4785, L85, L45, L12]
    ensures PruneFrom(original, 11, [L14789652, L6523, L63, L4785, L85, L45, L12]) == [L14789652, L6523]
  {
    FourNeighborsPrune11(original);
    FourNeighborsPruneFrom12(original);
  }

  lemma FourNeighborsPruneFrom10(original: seq<seq<NodeId>>)
    requires original == [L14, L47, L78, L89, L96, L478965, L65, L8965, L14789652, L52, L23, L6523, L63, L4785, L85, L45, L12]
    ensures PruneFrom(original, 10, [L14789652, L23, L6523, L63, L4785, L85, L45, L12]) == [L14789652, L6523]
  {
    FourNeighborsPrune10(original);
    FourNeighborsPruneFrom11(original);
  }

  lemma FourNeighborsPruneFrom9(original: seq<seq<NodeId>>)
    requires original == [L14, L47, L78, L89, L96, L478965, L65, L8965, L14789652, L52, L23, L6523, L63, L4785, L85, L45, L12]
    ensures PruneFrom(original, 9, [L14789652, L52, L23, L6523, L63, L4785, L85, L45, L12]) == [L14789652, L6523]
  {
    FourNeighborsPrune9(original);
    FourNeighborsPruneFrom10(original);
  }

  lemma FourNeighborsPruneFrom8(original: seq<seq<NodeId>>)
    requires original == [L14, L47, L78, L89, L96, L478965, L65, L8965, L14789652, L52, L23, L6523, L63, L4785, L85, L45, L12]
    ensures PruneFrom(original, 8, [L14789652, L52, L23, L6523, L63, L4785, L85, L45, L12]) == [L14789652, L6523]
  {
    FourNeighborsPrune8(original);
    FourNeighborsPruneFrom9(original);
  }

  lemma FourNeighborsPruneFrom7(original: seq<seq<NodeId>>)
    requires original == [L14, L47, L78, L89, L96, L478965, L65, L8965, L14789652, L52, L23, L6523, L63, L4785, L85, L45, L12]
    ensures PruneFrom(original, 7, [L8965, L14789652, L52, L23, L6523, L63, L4785, L85, L45, L12]) == [L14789652, L6523]
  {
    FourNeighborsPrune7(original);
    FourNeighborsPruneFrom8(original);
  }

  lemma FourNeighborsPruneFrom6(original: seq<seq<NodeId>>)
    requires original == [L14, L47, L78, L89, L96, L478965, L65, L8965, L14789652, L52, L23, L6523, L63, L4785, L85, L45, L12]
    ensures PruneFrom(original, 6, [L65, L8965, L14789652, L52, L23, L6523, L63, L4785, L85, L45, L12]) == [L14789652, L6523]
  {
    FourNeighborsPrune6(original);
    FourNeighborsPruneFrom7(original);
  }

  lemma FourNeighborsPruneFrom5(original: seq<seq<NodeId>>)
    requires original == [L14, L47, L78, L89, L96, L478965, L65, L8965, L14789652, L52, L23, L6523, L63, L4785, L85, L45, L12]
    ensures PruneFrom(original, 5, [L478965, L65, L8965, L14789652, L52, L23, L6523, L63, L4785, L85, L45, L12]) == [L14789652, L6523]
  {
    FourNeighborsPrune5(original);
    FourNeighborsPruneFrom6(original);
  }

  lemma FourNeighborsPruneFrom4(original: seq<seq<NodeId>>)
    requires original == [L14, L47, L78, L89, L96, L478965, L65, L8965, L14789652, L52, L23, L6523, L63, L4785, L85, L45, L12]
    ensures PruneFrom(original, 4, [L96, L478965, L65, L8965, L14789652, L52, L23, L6523, L63, L4785, L85, L45, L12]) == [L14789652, L6523]
  {
    FourNeighborsPrune4(original);
    FourNeighborsPruneFrom5(original);
  }

  lemma FourNeighborsPruneFrom3(original: seq<seq<NodeId>>)
    requires original == [L14, L47, L78, L89, L96, L478965, L65, L8965, L14789652, L52, L23, L6523, L63, L4785, L85, L45, L12]
    ensures PruneFrom(original, 3, [L89, L96, L478965, L65, L8965, L14789652, L52, L23, L6523, L63, L4785, L85, L45, L12]) == [L14789652, L6523]
  {
    FourNeighborsPrune3(original);
    FourNeighborsPruneFrom4(original);
  }

  lemma FourNeighborsPruneFrom2(original: seq<seq<NodeId>>)
    requires original == [L14, L47, L78, L89, L96, L478965, L65, L8965, L14789652, L52, L23, L6523, L63, L4785, L85, L45, L12]
    ensures PruneFrom(original, 2, [L78, L89, L96, L478965, L65, L8965, L14789652, L52, L23, L6523, L63, L4785, L85, L45, L12]) == [L14789652, L6523]
  {
    FourNeighborsPrune2(original);
    FourNeighborsPruneFrom3(original);
  }

  lemma FourNeighborsPruneFrom1(original: seq<seq<NodeId>>)
    requires original == [L14, L47, L78, L89, L96, L478965, L65, L8965, L14789652, L52, L23, L6523, L63, L4785, L85, L45, L12]
    ensures PruneFrom(original, 1, [L47, L78, L89, L96, L478965, L65, L8965, L14789652, L52, L23, L6523, L63, L4785, L85, L45, L12]) == [L14789652, L6523]
  {
    FourNeighborsPrune1(original);
    FourNeighborsPruneFrom2(original);
  }

  lemma FourNeighborsPruneFrom0(original: seq<seq<NodeId>>)
    requires original == [L14, L47, L78, L89, L96, L478965, L65, L8965, L14789652, L52, L23, L6523, L63, L4785, L85, L45, L12]
    ensures PruneFrom(original, 0, [L14, L47, L78, L89, L96, L478965, L65, L8965, L14789652, L52, L23, L6523, L63, L4785, L85, L45, L12]) == [L14789652, L6523]
  {
    FourNeighborsPrune0(original);
    FourNeighborsPruneFrom1(original);
  }

  lemma FourNeighborsPrune(original: seq<seq<NodeId>>)
    requires original == [L14, L47, L78, L89, L96, L478965, L65, L8965, L14789652, L52, L23, L6523, L63, L4785, L85, L45, L12]
    ensures Pruned(original) == [L14789652, L6523]
  {
    FourNeighborsPruneFrom0(original);
  }

  lemma FourNeighborsSelect1(cycles: seq<seq<NodeId>>, n: NodeId)
    requires cycles == [L14789652, L6523] && n == NodeId(1)
    ensures Dedup(Successors(cycles, n)) == L4
  {
    SuccessorAt(L14789652, n, 0, NodeId(4));
    SuccessorAbsent(L6523, n);
    SuccessorsTwo(L14789652, L6523, n);
    DedupOne(NodeId(4));
  }

  lemma FourNeighborsSelect2(cycles: seq<seq<NodeId>>, n: NodeId)
    requires cycles == [L14789652, L6523] && n == NodeId(2)
    ensures Dedup(Successors(cycles, n)) == L13
  {
    SuccessorAt(L14789652, n, 7, NodeId(1));
    SuccessorAt(L6523, n, 2, NodeId(3));
    SuccessorsTwo(L14789652, L6523, n);
    DedupTwo(NodeId(1), NodeId(3));
  }

  lemma FourNeighborsSelect3(cycles: seq<seq<NodeId>>, n: NodeId)
    requires cycles == [L14789652, L6523] && n == NodeId(3)
    ensures Dedup(Successors(cycles, n)) == L6
  {
    SuccessorAbsent(L14789652, n);
    SuccessorAt(L6523, n, 3, NodeId(6));
    SuccessorsTwo(L14789652, L6523, n);
    DedupOne(NodeId(6));
  }

  lemma FourNeighborsSelect4(cycles: seq<seq<NodeId>>, n: NodeId)
    requires cycles == [L14789652, L6523] && n == NodeId(4)
    ensures Dedup(Successors(cycles, n)) == L7
  {
    SuccessorAt(L14789652, n, 1, NodeId(7));
    SuccessorAbsent(L6523, n);
    SuccessorsTwo(L14789652, L6523, n);
    DedupOne(NodeId(7));
  }

  lemma FourNeighborsSelect5(cycles: seq<seq<NodeId>>, n: NodeId)
    requires cycles == [L14789652, L6523] && n == NodeId(5)
    ensures Dedup(Successors(cycles, n)) == L2
  {
    SuccessorAt(L14789652, n, 6, NodeId(2));
    SuccessorAt(L6523, n, 1, NodeId(2));
    SuccessorsTwo(L14789652, L6523, n);
    DedupTwo(NodeId(2), NodeId(2));
  }

  lemma FourNeighborsSelect6(cycles: seq<seq<NodeId>>, n: NodeId)
    requires cycles == [L14789652, L6523] && n == NodeId(6)
    ensures Dedup(Successors(cycles, n)) == L5
  {
    SuccessorAt(L14789652, n, 5, NodeId(5));
    SuccessorAt(L6523, n, 0, NodeId(5));
    SuccessorsTwo(L14789652, L6523, n);
    DedupTwo(NodeId(5), NodeId(5));
  }

  lemma FourNeighborsSelect7(cycles: seq<seq<NodeId>>, n: NodeId)
    requires cycles == [L14789652, L6523] && n == NodeId(7)
    ensures Dedup(Successors(cycles, n)) == L8
  {
    SuccessorAt(L14789652, n, 2, NodeId(8));
    SuccessorAbsent(L6523, n);
    SuccessorsTwo(L14789652, L6523, n);
    DedupOne(NodeId(8));
  }

  lemma FourNeighborsSelect8(cycles: seq<seq<NodeId>>, n: NodeId)
    requires cycles == [L14789652, L6523] && n == NodeId(8)
    ensures Dedup(Successors(cycles, n)) == L9
  {
    SuccessorAt(L14789652, n, 3, NodeId(9));
    SuccessorAbsent(L6523, n);
    SuccessorsTwo(L14789652, L6523, n);
    DedupOne(NodeId(9));
  }

  lemma FourNeighborsSelect9(cycles: seq<seq<NodeId>>, n: NodeId)
    requires cycles == [L14789652, L6523] && n == NodeId(9)
    ensures Dedup(Successors(cycles, n)) == L6
  {
    SuccessorAt(L14789652, n, 4, NodeId(6));
    SuccessorAbsent(L6523, n);
    SuccessorsTwo(L14789652, L6523, n);
    DedupOne(NodeId(6));
  }

  /** Every list of `FourNeighborsGraph` is already sorted. */
  lemma FourNeighborsSorted()
    ensures forall k | k in FourNeighborsGraph :: Sorted(FourNeighborsGraph[k])
  {
    FourNeighborsListsSorted();
    FourNeighborsLists(FourNeighborsGraph);
  }

  lemma FourNeighborsListsSorted()
    ensures Sorted(L135) && Sorted(L157) && Sorted(L24) && Sorted(L2468) && Sorted(L26)
    ensures Sorted(L359) && Sorted(L48) && Sorted(L579) && Sorted(L68)
  {
  }

  /** So the topology `from` builds on `FourNeighborsGraph` is `FourNeighborsGraph` itself. */
  lemma FourNeighborsFrom(t: Graph)
    requires t.Keys == FourNeighborsGraph.Keys && forall k | k in t :: t[k] == Sort(FourNeighborsGraph[k])
    ensures t == FourNeighborsGraph
  {
    FourNeighborsSorted();
    FromKeepsSorted(FourNeighborsGraph, t);
  }

  lemma FourNeighborsLists(t: Graph)
    requires t == FourNeighborsGraph
    ensures t.Keys == {NodeId(1), NodeId(2), NodeId(3), NodeId(4), NodeId(5), NodeId(6), NodeId(7), NodeId(8), NodeId(9)}
    ensures t[NodeId(1)] == L24
    ensures t[NodeId(2)] == L135
    ensures t[NodeId(3)] == L26
    ensures t[NodeId(4)] == L157
    ensures t[NodeId(5)] == L2468
    ensures t[NodeId(6)] == L359
    ensures t[NodeId(7)] == L48
    ensures t[NodeId(8)] == L579
    ensures t[NodeId(9)] == L68
  {
  }

  /** `four_neighbors`: what `next` returns for each node of the topology built from `FourNeighborsGraph`. */
  lemma FourNeighbors(t: Graph)
    requires t.Keys == FourNeighborsGraph.Keys && forall k | k in t :: t[k] == Sort(FourNeighborsGraph[k])
    ensures NextSpec(t, NodeId(1)) == L4
    ensures NextSpec(t, NodeId(2)) == L13
    ensures NextSpec(t, NodeId(3)) == L6
    ensures NextSpec(t, NodeId(4)) == L7
    ensures NextSpec(t, NodeId(5)) == L2
    ensures NextSpec(t, NodeId(6)) == L5
    ensures NextSpec(t, NodeId(7)) == L8
    ensures NextSpec(t, NodeId(8)) == L9
    ensures NextSpec(t, NodeId(9)) == L6
  {
    FourNeighborsFrom(t);
    FourNeighborsLists(t);
    FourNeighborsSearch(t);
    FourNeighborsPrune(SearchCycles(t));
    FourNeighborsSelect1([L14789652, L6523], NodeId(1));
    NextFromPruned(t, [L14789652, L6523], NodeId(1));
    FourNeighborsSelect2([L14789652, L6523], NodeId(2));
    NextFromPruned(t, [L14789652, L6523], NodeId(2));
    FourNeighborsSelect3([L14789652, L6523], NodeId(3));
    NextFromPruned(t, [L14789652, L6523], NodeId(3));
    FourNeighborsSelect4([L14789652, L6523], NodeId(4));
    NextFromPruned(t, [L14789652, L6523], NodeId(4));
    FourNeighborsSelect5([L14789652, L6523], NodeId(5));
    NextFromPruned(t, [L14789652, L6523], NodeId(5));
    FourNeighborsSelect6([L14789652, L6523], NodeId(6));
    NextFromPruned(t, [L14789652, L6523], NodeId(6));
    FourNeighborsSelect7([L14789652, L6523], NodeId(7));
    NextFromPruned(t, [L14789652, L6523], NodeId(7));
    FourNeighborsSelect8([L14789652, L6523], NodeId(8));
    NextFromPruned(t, [L14789652, L6523], NodeId(8));
    FourNeighborsSelect9([L14789652, L6523], NodeId(9));
    NextFromPruned(t, [L14789652, L6523], NodeId(9));
  }
}
