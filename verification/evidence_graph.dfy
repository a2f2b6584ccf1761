/**
 * The provenance graph: which evidence derives from no other known evidence, and how many
 * independent roots there are, on graphs that may contain cycles.
 */
module EvidenceGraphs {

  type NodeId = string

  datatype ProvenanceNode = ProvenanceNode(nodeId: NodeId, sourceId: string, sourceType: string, trustLevel: string)

  /** One evidence item: its node and the ids it says it derives from. */
  datatype Item = Item(node: ProvenanceNode, derivedFrom: seq<NodeId>)

  /** Nodes, the order their ids were first added in, and who cites whom. */
  datatype Graph = Graph(nodes: map<NodeId, ProvenanceNode>, order: seq<NodeId>, edges: map<NodeId, set<NodeId>>)

  const EMPTY := Graph(map[], [], map[])

  function Cited(g: Graph, n: NodeId): set<NodeId> {
    if n in g.edges then g.edges[n] else {}
  }

  /** The cited nodes that are themselves in the graph. */
  function KnownParents(g: Graph, n: NodeId): set<NodeId> {
    set p | p in Cited(g, n) && p in g.nodes
  }

  function Roots(g: Graph): set<NodeId> {
    set n | n in g.nodes && KnownParents(g, n) == {}
  }

  function WithKey(edges: map<NodeId, set<NodeId>>, n: NodeId): map<NodeId, set<NodeId>> {
    if n in edges then edges else edges[n := {}]
  }

  function Cite(edges: map<NodeId, set<NodeId>>, n: NodeId, parents: seq<NodeId>): map<NodeId, set<NodeId>>
    requires n in edges
    decreases |parents|
  {
    if parents == [] then edges
    else Cite(WithKey(edges[n := edges[n] + {parents[0]}], parents[0]), n, parents[1..])
  }

  function AddNode(g: Graph, item: Item): Graph {
    var n := item.node.nodeId;
    Graph(g.nodes[n := item.node],
          if n in g.nodes then g.order else g.order + [n],
          Cite(WithKey(g.edges, n), n, item.derivedFrom))
  }

  function BuildFrom(g: Graph, items: seq<Item>): Graph
    decreases |items|
  {
    if items == [] then g else BuildFrom(AddNode(g, items[0]), items[1..])
  }

  function Build(items: seq<Item>): Graph {
    BuildFrom(EMPTY, items)
  }

  ghost predicate Formed(g: Graph) {
    && (forall n :: n in g.order <==> n in g.nodes)
    && Distinct(g.order)
    && (forall n :: n in g.nodes ==> n in g.edges)
  }

  /** A walk along citations of known nodes. */
  predicate Walk(g: Graph, path: seq<NodeId>) {
    && (forall i :: 0 <= i < |path| ==> path[i] in g.nodes)
    && (forall i :: 0 <= i < |path| - 1 ==> CitesNext(g, path, i))
  }

  predicate CitesNext(g: Graph, path: seq<NodeId>, i: nat)
    requires i < |path| - 1
  {
    path[i + 1] in KnownParents(g, path[i])
  }

  /** Following citations of known nodes leads from `n` to `m`. */
  ghost predicate Reaches(g: Graph, n: NodeId, m: NodeId) {
    exists path :: Walk(g, path) && |path| > 0 && path[0] == n && path[|path| - 1] == m
  }

  lemma ReachesItself(g: Graph, n: NodeId)
    requires n in g.nodes
    ensures Reaches(g, n, n)
  {
    assert Walk(g, [n]);
  }

  lemma ReachesThroughParent(g: Graph, n: NodeId, p: NodeId, m: NodeId)
    requires n in g.nodes && p in KnownParents(g, n) && Reaches(g, p, m)
    ensures Reaches(g, n, m)
  {
    var path :| Walk(g, path) && |path| > 0 && path[0] == p && path[|path| - 1] == m;
    var longer := [n] + path;
    assert forall i :: 0 <= i < |path| ==> longer[i + 1] == path[i];
    forall i | 0 <= i < |longer| - 1 ensures CitesNext(g, longer, i) {
      assert i > 0 ==> CitesNext(g, path, i - 1);
    }
    assert Walk(g, longer);
  }

  /** The ids without a known parent, in the order the ids were added. */
  function RootsInOrder(g: Graph, order: seq<NodeId>): (r: seq<NodeId>)
    ensures forall n :: n in r <==> n in order && n in Roots(g)
  {
    if order == [] then []
    else
      var init, last := order[..|order| - 1], order[|order| - 1];
      RootsInOrder(g, init) + (if last in Roots(g) then [last] else [])
  }

  ghost predicate Distinct(xs: seq<NodeId>) {
    forall i, j :: 0 <= i < j < |xs| ==> xs[i] != xs[j]
  }

  lemma {:induction false} RootsInOrderAreDistinct(g: Graph, order: seq<NodeId>)
    requires Distinct(order)
    ensures Distinct(RootsInOrder(g, order))
    decreases |order|
  {
    if order != [] {
      RootsInOrderAreDistinct(g, order[..|order| - 1]);
    }
  }

  lemma {:induction false} OneMoreRoot(g: Graph, order: seq<NodeId>, i: nat)
    requires i < |order|
    ensures RootsInOrder(g, order[..i + 1]) == RootsInOrder(g, order[..i]) + (if order[i] in Roots(g) then [order[i]] else [])
  {
    assert order[..i + 1][..i] == order[..i];
  }

  // ------------------------------------------------------------ the graph object

  class EvidenceGraph {
    var nodes: map<NodeId, ProvenanceNode>
    var order: seq<NodeId>
    var derivedFrom: map<NodeId, set<NodeId>>

    function Contents(): Graph
      reads this
    {
      Graph(nodes, order, derivedFrom)
    }

    ghost predicate Valid()
      reads this
    {
      Formed(Contents())
    }

    constructor ()
      ensures Valid() && Contents() == EMPTY
    {
      nodes, order, derivedFrom := map[], [], map[];
    }

    method Add(item: Item)
      requires Valid()
      modifies this
      ensures Valid() && Contents() == AddNode(old(Contents()), item)
    {
      var n := item.node.nodeId;
      if n !in nodes {
        order := order + [n];
      }
      nodes := nodes[n := item.node];
      if n !in derivedFrom {
        derivedFrom := derivedFrom[n := {}];
      }
      CiteAll(n, item.derivedFrom);
    }

    /** The loop of `Add` over the cited parents. */
    method CiteAll(n: NodeId, parents: seq<NodeId>)
      requires n in derivedFrom
      modifies this`derivedFrom
      ensures derivedFrom == Cite(old(derivedFrom), n, parents)
      ensures forall m :: m in old(derivedFrom) ==> m in derivedFrom
    {
      var i := 0;
      while i < |parents|
        invariant 0 <= i <= |parents| && n in derivedFrom
        invariant forall m :: m in old(derivedFrom) ==> m in derivedFrom
        invariant Cite(derivedFrom, n, parents[i..]) == Cite(old(derivedFrom), n, parents)
      {
        var parent := parents[i];
        assert parents[i..][1..] == parents[i + 1..];
        derivedFrom := derivedFrom[n := derivedFrom[n] + {parent}];
        if parent !in derivedFrom {
          derivedFrom := derivedFrom[parent := {}];
        }
        i := i + 1;
      }
    }

    /** Ids that cite no known node, in the order they were added, each once. */
    method IndependentRoots() returns (roots: seq<NodeId>)
      requires Valid()
      ensures roots == RootsInOrder(Contents(), order) && Distinct(roots)
      ensures forall n :: n in roots <==> n in Roots(Contents())
    {
      ghost var g := Contents();
      roots := [];
      var i := 0;
      while i < |order|
        invariant 0 <= i <= |order|
        invariant roots == RootsInOrder(g, order[..i])
      {
        var n := order[i];
        var known := set p | p in (if n in derivedFrom then derivedFrom[n] else {}) && p in nodes;
        assert known == KnownParents(g, n);
        OneMoreRoot(g, order, i);
        if known == {} {
          roots := roots + [n];
        }
        i := i + 1;
      }
      assert order[..i] == order;
      RootsInOrderAreDistinct(g, order);
    }

    /**
     * The roots a node traces back to. `seen` is shared by the whole search, so every call
     * that recurses first takes a node out of those still unseen.
     */
    method ResolveRoots(nodeId: NodeId, roots: set<NodeId>, seen: set<NodeId>)
      returns (result: set<NodeId>, seen': set<NodeId>)
      requires Valid() && nodeId in nodes
      ensures seen <= seen' && result <= nodes.Keys
      ensures nodeId in roots ==> result == {nodeId}
      ensures forall m :: m in result ==> Reaches(Contents(), nodeId, m)
      decreases |nodes.Keys - seen|
    {
      ReachesItself(Contents(), nodeId);
      if nodeId in roots { return {nodeId}, seen; }
      if nodeId in seen { return {}, seen; }
      seen' := seen + {nodeId};
      assert nodes.Keys - seen' < nodes.Keys - seen;
      Fewer(nodes.Keys - seen', nodes.Keys - seen);
      result := {};
      var todo := if nodeId in derivedFrom then derivedFrom[nodeId] else {};
      while todo != {}
        invariant seen + {nodeId} <= seen' && result <= nodes.Keys && todo <= Cited(Contents(), nodeId)
        invariant forall m :: m in result ==> Reaches(Contents(), nodeId, m)
        decreases |todo|
      {
        var parent :| parent in todo;
        todo := todo - {parent};
        if parent in nodes {
          Fewer(nodes.Keys - seen', nodes.Keys - seen);
          var found, seen'' := ResolveRoots(parent, roots, seen');
          forall m | m in found ensures Reaches(Contents(), nodeId, m) {
            ReachesThroughParent(Contents(), nodeId, parent, m);
          }
          result, seen' := result + found, seen'';
        }
      }
      if result == {} { result := {nodeId}; }
    }

    method RootSet() returns (roots: set<NodeId>)
      requires Valid()
      ensures roots == Roots(Contents())
    {
      var list := IndependentRoots();
      roots := set n | n in list;
    }

    /** The search returns, on every graph, the number of nodes without a known parent. */
    method IndependentRootCount() returns (count: nat)
      requires Valid()
      ensures count == |Roots(Contents())|
    {
      var roots := RootSet();
      if roots == {} { return 0; }

      var reachable: set<NodeId> := {};
      var i := 0;
      while i < |order|
        invariant 0 <= i <= |order|
        invariant forall k :: 0 <= k < i && order[k] in roots ==> order[k] in reachable
      {
        var found, _ := ResolveRoots(order[i], roots, {});
        reachable := reachable + found;
        i := i + 1;
      }
      AllRootsReached(order, roots, reachable);
      var n: int := |reachable * roots|;
      if n == 0 { n := |roots|; }
      count := n;
    }
  }

  lemma AllRootsReached(order: seq<NodeId>, roots: set<NodeId>, reachable: set<NodeId>)
    requires forall n :: n in roots ==> n in order
    requires forall k :: 0 <= k < |order| && order[k] in roots ==> order[k] in reachable
    ensures reachable * roots == roots
  {
  }

  lemma Fewer(a: set<NodeId>, b: set<NodeId>)
    requires a < b
    ensures |a| < |b|
  {
    assert b == a + (b - a);
  }

  /** Build a graph from a list of evidence. */
  method BuildGraph(items: seq<Item>) returns (graph: EvidenceGraph)
    ensures fresh(graph) && graph.Valid() && graph.Contents() == Build(items)
  {
    graph := new EvidenceGraph();
    var i := 0;
    while i < |items|
      invariant 0 <= i <= |items| && graph.Valid() && fresh(graph)
      invariant BuildFrom(graph.Contents(), items[i..]) == Build(items)
    {
      graph.Add(items[i]);
      assert items[i..][1..] == items[i + 1..];
      i := i + 1;
    }
  }

  // --------------------------------------------------- closed form of the build

  function Ids(items: seq<Item>): set<NodeId> {
    set i | 0 <= i < |items| :: items[i].node.nodeId
  }

  /** Some item with id `n` says it derives from `p`. */
  predicate Cites(items: seq<Item>, n: NodeId, p: NodeId) {
    exists i :: 0 <= i < |items| && items[i].node.nodeId == n && p in items[i].derivedFrom
  }

  lemma {:induction false} CiteAdds(edges: map<NodeId, set<NodeId>>, n: NodeId, parents: seq<NodeId>, m: NodeId, p: NodeId)
    requires n in edges
    ensures p in CitedIn(Cite(edges, n, parents), m) <==> p in CitedIn(edges, m) || (m == n && p in parents)
    decreases |parents|
  {
    if parents != [] {
      CiteAdds(WithKey(edges[n := edges[n] + {parents[0]}], parents[0]), n, parents[1..], m, p);
    }
  }

  function CitedIn(edges: map<NodeId, set<NodeId>>, n: NodeId): set<NodeId> {
    if n in edges then edges[n] else {}
  }

  lemma {:induction false} BuildFromShape(g: Graph, items: seq<Item>, m: NodeId, p: NodeId)
    ensures m in BuildFrom(g, items).nodes <==> m in g.nodes || m in Ids(items)
    ensures p in Cited(BuildFrom(g, items), m) <==> p in Cited(g, m) || Cites(items, m, p)
    decreases |items|
  {
    if items != [] {
      var item, rest := items[0], items[1..];
      BuildFromShape(AddNode(g, item), rest, m, p);
      CiteAdds(WithKey(g.edges, item.node.nodeId), item.node.nodeId, item.derivedFrom, m, p);
      FirstAndRest(items, m, p);
    }
  }

  lemma FirstAndRest(items: seq<Item>, m: NodeId, p: NodeId)
    requires items != []
    ensures m in Ids(items) <==> m == items[0].node.nodeId || m in Ids(items[1..])
    ensures Cites(items, m, p) <==> (m == items[0].node.nodeId && p in items[0].derivedFrom) || Cites(items[1..], m, p)
  {
    var rest := items[1..];
    if i :| 0 <= i < |rest| && rest[i].node.nodeId == m {
      assert items[i + 1] == rest[i];
    }
    if i :| 0 <= i < |items| && items[i].node.nodeId == m {
      assert i > 0 ==> rest[i - 1] == items[i];
    }
    if Cites(rest, m, p) {
      var i :| 0 <= i < |rest| && rest[i].node.nodeId == m && p in rest[i].derivedFrom;
      assert items[i + 1] == rest[i];
    }
    if i :| 0 <= i < |items| && items[i].node.nodeId == m && p in items[i].derivedFrom {
      assert i > 0 ==> rest[i - 1] == items[i];
    }
  }

  /** The roots, from the list of evidence alone: ids that no item with that id derives from a listed id. */
  lemma RootsOfBuild(items: seq<Item>, n: NodeId)
    ensures n in Roots(Build(items)) <==> n in Ids(items) && forall p :: p in Ids(items) ==> !Cites(items, n, p)
  {
    forall p ensures p in KnownParents(Build(items), n) <==> p in Ids(items) && Cites(items, n, p) {
      BuildFromShape(EMPTY, items, n, p);
      BuildFromShape(EMPTY, items, p, p);
    }
    BuildFromShape(EMPTY, items, n, n);
  }

  /** The order of the evidence, and repetitions of an item, do not change the roots. */
  lemma RootsIgnoreOrder(items: seq<Item>, others: seq<Item>)
    requires forall x :: x in items <==> x in others
    ensures Roots(Build(items)) == Roots(Build(others))
    ensures |Roots(Build(items))| == |Roots(Build(others))|
  {
    SameElementsSameShape(items, others);
    forall n ensures n in Roots(Build(items)) <==> n in Roots(Build(others)) {
      RootsOfBuild(items, n);
      RootsOfBuild(others, n);
    }
  }

  lemma SameElementsSameShape(items: seq<Item>, others: seq<Item>)
    requires forall x :: x in items <==> x in others
    ensures Ids(items) == Ids(others)
    ensures forall n, p :: Cites(items, n, p) <==> Cites(others, n, p)
  {
    forall n ensures n in Ids(items) <==> n in Ids(others) {
      if i :| 0 <= i < |items| && items[i].node.nodeId == n { assert items[i] in others; }
      if i :| 0 <= i < |others| && others[i].node.nodeId == n { assert others[i] in items; }
    }
    forall n, p ensures Cites(items, n, p) <==> Cites(others, n, p) {
      if Cites(items, n, p) {
        var i :| 0 <= i < |items| && items[i].node.nodeId == n && p in items[i].derivedFrom;
        assert items[i] in others;
      }
      if Cites(others, n, p) {
        var i :| 0 <= i < |others| && others[i].node.nodeId == n && p in others[i].derivedFrom;
        assert others[i] in items;
      }
    }
  }

  /** Repetition is not independence: any number of fresh items that cite known evidence add no root. */
  lemma RepetitionAddsNoRoot(items: seq<Item>, extra: seq<Item>)
    requires forall i :: 0 <= i < |extra| ==>
      && extra[i].node.nodeId !in Ids(items)
      && (exists p :: p in extra[i].derivedFrom && p in Ids(items))
    requires forall i, n :: 0 <= i < |extra| ==> !Cites(items, n, extra[i].node.nodeId)
    ensures Roots(Build(items + extra)) == Roots(Build(items))
    ensures |Roots(Build(items + extra))| == |Roots(Build(items))|
  {
    var all := items + extra;
    forall n ensures n in Roots(Build(all)) <==> n in Roots(Build(items)) {
      RootsOfBuild(all, n);
      RootsOfBuild(items, n);
      AppendedShape(items, extra, n);
      if i :| 0 <= i < |extra| && extra[i].node.nodeId == n {
        var p :| p in extra[i].derivedFrom && p in Ids(items);
        AppendedShape(items, extra, p);
        assert all[|items| + i] == extra[i];
        assert Cites(all, n, p);
      } else {
        forall p ensures Cites(all, n, p) <==> Cites(items, n, p) {
          if Cites(all, n, p) {
            var i :| 0 <= i < |all| && all[i].node.nodeId == n && p in all[i].derivedFrom;
            AppendedItem(items, extra, i);
          }
          if Cites(items, n, p) {
            var i :| 0 <= i < |items| && items[i].node.nodeId == n && p in items[i].derivedFrom;
            assert all[i] == items[i];
          }
        }
        forall p | p in Ids(all) && Cites(items, n, p) ensures p in Ids(items) {
          AppendedShape(items, extra, p);
        }
        forall p | p in Ids(items) ensures p in Ids(all) {
          AppendedShape(items, extra, p);
        }
      }
    }
  }

  lemma AppendedItem(items: seq<Item>, extra: seq<Item>, i: nat)
    requires i < |items + extra|
    ensures (items + extra)[i] == if i < |items| then items[i] else extra[i - |items|]
  {
  }

  lemma AppendedShape(items: seq<Item>, extra: seq<Item>, n: NodeId)
    ensures n in Ids(items + extra) <==> n in Ids(items) || n in Ids(extra)
  {
    var all := items + extra;
    if i :| 0 <= i < |items| && items[i].node.nodeId == n { assert all[i] == items[i]; }
    if i :| 0 <= i < |extra| && extra[i].node.nodeId == n { assert all[|items| + i] == extra[i]; }
    if i :| 0 <= i < |all| && all[i].node.nodeId == n { assert i >= |items| ==> all[i] == extra[i - |items|]; }
  }

  // ------------------------------------------------------------- acyclic graphs

  ghost predicate Acyclic(g: Graph) {
    forall path :: Walk(g, path) && |path| >= 2 ==> path[0] != path[|path| - 1]
  }

  lemma {:induction false} WalkOfLength(g: Graph, n: NodeId, k: nat) returns (path: seq<NodeId>)
    requires Roots(g) == {} && n in g.nodes
    ensures Walk(g, path) && |path| == k + 1 && path[0] == n
    decreases k
  {
    if k == 0 {
      path := [n];
    } else {
      assert n !in Roots(g);
      var p :| p in KnownParents(g, n);
      var rest := WalkOfLength(g, p, k - 1);
      path := [n] + rest;
      forall i | 0 <= i < |path| - 1 ensures CitesNext(g, path, i) {
        assert i > 0 ==> CitesNext(g, rest, i - 1);
      }
    }
  }

  lemma {:induction false} Pigeonhole(path: seq<NodeId>, s: set<NodeId>) returns (i: nat, j: nat)
    requires |path| > |s| && forall k :: 0 <= k < |path| ==> path[k] in s
    ensures i < j < |path| && path[i] == path[j]
    decreases |path|
  {
    var last := |path| - 1;
    if k :| 0 <= k < last && path[k] == path[last] {
      i, j := k, last;
    } else {
      i, j := Pigeonhole(path[..last], s - {path[last]});
    }
  }

  lemma SubWalk(g: Graph, path: seq<NodeId>, i: nat, j: nat)
    requires Walk(g, path) && i < j < |path|
    ensures Walk(g, path[i..j + 1])
  {
    var sub := path[i..j + 1];
    assert forall k :: 0 <= k < |sub| ==> sub[k] == path[i + k];
    forall k | 0 <= k < |sub| - 1 ensures CitesNext(g, sub, k) {
      assert CitesNext(g, path, i + k);
    }
  }

  /** A non-empty acyclic graph has at least one independent root. */
  lemma AcyclicHasRoot(g: Graph)
    requires Acyclic(g) && g.nodes != map[]
    ensures |Roots(g)| >= 1
  {
    if Roots(g) == {} {
      var n :| n in g.nodes;
      var path := WalkOfLength(g, n, |g.nodes.Keys|);
      var i, j := Pigeonhole(path, g.nodes.Keys);
      SubWalk(g, path, i, j);
      assert false;
    }
  }

  /** Adding an item: its node is there under its id, in place or at the end, it cites what it did and what the item says, and nothing else changes. */
  lemma {:induction false} AddsExactly(g: Graph, item: Item, m: NodeId, p: NodeId)
    ensures var g' := AddNode(g, item); var n := item.node.nodeId;
      && g'.nodes == g.nodes[n := item.node]
      && g'.order == (if n in g.nodes then g.order else g.order + [n])
      && (p in CitedIn(g'.edges, m) <==> p in CitedIn(g.edges, m) || (m == n && p in item.derivedFrom))
  {
    CiteAdds(WithKey(g.edges, item.node.nodeId), item.node.nodeId, item.derivedFrom, m, p);
  }
}
