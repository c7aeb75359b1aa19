/**
 * The process-flow editor's state: a list of nodes and a list of edges between
 * them, and the six handlers that replace those lists. Identifiers are strings;
 * freshly generated identifiers are supplied by the caller with the promise
 * that they are not yet in use.
 */
module ProcessFlow {
  import opened Wrappers
  import Seqs

  type Id = string

  datatype NodeType = Type1 | Type2 | Type3

  datatype Node = Node(id: Id, name: string, kind: NodeType)

  datatype Edge = Edge(id: Id, upstream: Id, downstream: Id)

  /** What `updateNode` may change: the name, or the type (one of the three offered). */
  datatype NodeChange = SetName(name: string) | SetType(kind: NodeType)

  /** Which end of an edge `updateEdge` re-targets. */
  datatype Endpoint = Upstream | Downstream

  function NodeIds(nodes: seq<Node>): set<Id> {
    set i | 0 <= i < |nodes| :: nodes[i].id
  }

  function EdgeIds(edges: seq<Edge>): set<Id> {
    set i | 0 <= i < |edges| :: edges[i].id
  }

  /** Every edge starts and ends at a node that exists. */
  ghost predicate Intact(nodes: seq<Node>, edges: seq<Edge>) {
    forall i :: 0 <= i < |edges| ==>
      edges[i].upstream in NodeIds(nodes) && edges[i].downstream in NodeIds(nodes)
  }

  function NodeId(n: Node): Id { n.id }

  function EdgeId(e: Edge): Id { e.id }

  /** No two elements of `s` share an identifier. */
  ghost predicate Distinct<T>(s: seq<T>, id: T -> Id) {
    forall i, j :: 0 <= i < j < |s| ==> id(s[i]) != id(s[j])
  }

  ghost predicate DistinctNodeIds(nodes: seq<Node>) {
    Distinct(nodes, NodeId)
  }

  ghost predicate DistinctEdgeIds(edges: seq<Edge>) {
    Distinct(edges, EdgeId)
  }

  /** The two nodes the editor starts with. */
  function InitialNodes(): (r: seq<Node>)
    ensures |r| == 2 && DistinctNodeIds(r)
  {
    [Node("n1", "Tank A", Type1), Node("n2", "Pump B", Type2)]
  }

  /** The node `updateNode` writes in place of `n`. */
  function Changed(n: Node, change: NodeChange): (r: Node)
    ensures r.id == n.id
    ensures change.SetName? ==> r.name == change.name && r.kind == n.kind
    ensures change.SetType? ==> r.kind == change.kind && r.name == n.name
  {
    match change
    case SetName(name) => n.(name := name)
    case SetType(kind) => n.(kind := kind)
  }

  /** The list `updateNode(id, ...)` produces: the nodes with identifier `id` changed. */
  function UpdateNodes(nodes: seq<Node>, id: Id, change: NodeChange): (r: seq<Node>)
    ensures |r| == |nodes|
    ensures forall i :: 0 <= i < |nodes| ==> r[i].id == nodes[i].id
    ensures forall i :: 0 <= i < |nodes| && nodes[i].id != id ==> r[i] == nodes[i]
    ensures forall i :: 0 <= i < |nodes| && nodes[i].id == id ==> r[i] == Changed(nodes[i], change)
  {
    if nodes == [] then []
    else
      var rest := UpdateNodes(nodes[1..], id, change);
      var r := [if nodes[0].id == id then Changed(nodes[0], change) else nodes[0]] + rest;
      assert forall i :: 1 <= i < |nodes| ==> r[i] == rest[i - 1] && nodes[i] == nodes[1..][i - 1];
      r
  }

  /** The edge written in place of `e` when its `end` is re-targeted to `target`. */
  function Retargeted(e: Edge, end: Endpoint, target: Id): (r: Edge)
    ensures r.id == e.id
    ensures end == Upstream ==> r.upstream == target && r.downstream == e.downstream
    ensures end == Downstream ==> r.downstream == target && r.upstream == e.upstream
  {
    match end
    case Upstream => e.(upstream := target)
    case Downstream => e.(downstream := target)
  }

  /** The list `updateEdge(id, end, target)` produces. */
  function UpdateEdges(edges: seq<Edge>, id: Id, end: Endpoint, target: Id): (r: seq<Edge>)
    ensures |r| == |edges|
    ensures forall i :: 0 <= i < |edges| ==> r[i].id == edges[i].id
    ensures forall i :: 0 <= i < |edges| && edges[i].id != id ==> r[i] == edges[i]
    ensures forall i :: 0 <= i < |edges| && edges[i].id == id ==> r[i] == Retargeted(edges[i], end, target)
  {
    if edges == [] then []
    else
      var rest := UpdateEdges(edges[1..], id, end, target);
      var r := [if edges[0].id == id then Retargeted(edges[0], end, target) else edges[0]] + rest;
      assert forall i :: 1 <= i < |edges| ==> r[i] == rest[i - 1] && edges[i] == edges[1..][i - 1];
      r
  }

  predicate NotNode(n: Node, id: Id) { n.id != id }

  predicate Untouched(e: Edge, id: Id) { e.upstream != id && e.downstream != id }

  predicate NotEdge(e: Edge, id: Id) { e.id != id }

  /** The node list after `removeNode(id)`. */
  function NodesWithout(nodes: seq<Node>, id: Id): seq<Node> {
    Seqs.Filter(nodes, n => NotNode(n, id))
  }

  /** The edge list after `removeNode(id)`: edges touching `id` at either end are dropped. */
  function EdgesAvoiding(edges: seq<Edge>, id: Id): seq<Edge> {
    Seqs.Filter(edges, e => Untouched(e, id))
  }

  /** The edge list after `removeEdge(id)`. */
  function EdgesWithout(edges: seq<Edge>, id: Id): (r: seq<Edge>)
    ensures id !in EdgeIds(r)
    ensures forall i :: 0 <= i < |edges| && edges[i].id != id ==> edges[i] in r
    ensures forall i :: 0 <= i < |r| ==> r[i] in edges
  {
    Seqs.Filter(edges, e => NotEdge(e, id))
  }

  /** The edge `addEdge` appends, if any: from the first node to the second. */
  function NewEdge(nodes: seq<Node>, id: Id): (r: Option<Edge>)
    ensures r.Some? <==> |nodes| >= 2
    ensures r.Some? ==> r.value == Edge(id, nodes[0].id, nodes[1].id)
  {
    if |nodes| < 2 then None else Some(Edge(id, nodes[0].id, nodes[1].id))
  }

  /** Dropping elements keeps identifiers distinct. */
  lemma {:induction false} FilterKeepsDistinct<T>(s: seq<T>, p: T -> bool, id: T -> Id)
    requires Distinct(s, id)
    ensures Distinct(Seqs.Filter(s, p), id)
  {
    if s != [] {
      var rest := Seqs.Filter(s[1..], p);
      FilterKeepsDistinct(s[1..], p, id);
      if p(s[0]) {
        var r := [s[0]] + rest;
        forall i, j | 0 <= i < j < |r| ensures id(r[i]) != id(r[j]) {
          if i == 0 {
            assert r[j] == rest[j - 1];
            var k :| 0 <= k < |s[1..]| && s[1..][k] == rest[j - 1];
            assert s[k + 1] == r[j];
          }
        }
      }
    }
  }

  /** Updating a node whose identifier is unknown changes nothing. */
  lemma UpdateUnknownNodeIsNoop(nodes: seq<Node>, id: Id, change: NodeChange)
    requires id !in NodeIds(nodes)
    ensures UpdateNodes(nodes, id, change) == nodes
  {
    var r := UpdateNodes(nodes, id, change);
    forall i | 0 <= i < |nodes| ensures r[i] == nodes[i] {
      assert nodes[i].id in NodeIds(nodes);
    }
  }

  /** Updating an edge whose identifier is unknown changes nothing. */
  lemma UpdateUnknownEdgeIsNoop(edges: seq<Edge>, id: Id, end: Endpoint, target: Id)
    requires id !in EdgeIds(edges)
    ensures UpdateEdges(edges, id, end, target) == edges
  {
    var r := UpdateEdges(edges, id, end, target);
    forall i | 0 <= i < |edges| ensures r[i] == edges[i] {
      assert edges[i].id in EdgeIds(edges);
    }
  }

  /** Node updates never change the set of node identifiers. */
  lemma UpdateNodesKeepsIds(nodes: seq<Node>, id: Id, change: NodeChange)
    ensures NodeIds(UpdateNodes(nodes, id, change)) == NodeIds(nodes)
  {
    var r := UpdateNodes(nodes, id, change);
    forall x | x in NodeIds(nodes) ensures x in NodeIds(r) {
      var i :| 0 <= i < |nodes| && nodes[i].id == x;
      assert r[i].id == x;
    }
  }

  /** Removing a node, with every edge that touches it, keeps every edge end on an existing node. */
  lemma RemoveNodeKeepsIntact(nodes: seq<Node>, edges: seq<Edge>, id: Id)
    requires Intact(nodes, edges)
    ensures Intact(NodesWithout(nodes, id), EdgesAvoiding(edges, id))
  {
    var ns, es := NodesWithout(nodes, id), EdgesAvoiding(edges, id);
    forall i | 0 <= i < |es| ensures es[i].upstream in NodeIds(ns) && es[i].downstream in NodeIds(ns) {
      var k :| 0 <= k < |edges| && edges[k] == es[i];
      forall x | x in {es[i].upstream, es[i].downstream} ensures x in NodeIds(ns) {
        assert x in NodeIds(nodes);
        var j :| 0 <= j < |nodes| && nodes[j].id == x;
        assert NotNode(nodes[j], id);
        var m :| 0 <= m < |ns| && ns[m] == nodes[j];
      }
    }
  }

  /**
   * What `removeNode(id)` leaves: no node with `id`, no edge touching it, every
   * other node and every untouched edge still there in the same order, with
   * integrity and distinct identifiers kept.
   */
  lemma RemoveNodeEffects(nodes: seq<Node>, edges: seq<Edge>, id: Id)
    requires Intact(nodes, edges) && DistinctNodeIds(nodes) && DistinctEdgeIds(edges)
    ensures var ns, es := NodesWithout(nodes, id), EdgesAvoiding(edges, id);
            Intact(ns, es) && DistinctNodeIds(ns) && DistinctEdgeIds(es)
            && id !in NodeIds(ns)
            && (forall i :: 0 <= i < |es| ==> es[i].upstream != id && es[i].downstream != id)
            && (forall i :: 0 <= i < |nodes| && nodes[i].id != id ==> nodes[i] in ns)
            && (forall i :: 0 <= i < |edges| && Untouched(edges[i], id) ==> edges[i] in es)
            && Seqs.IsSubsequence(ns, nodes) && Seqs.IsSubsequence(es, edges)
  {
    Seqs.FilterIsSubsequence(nodes, n => NotNode(n, id));
    Seqs.FilterIsSubsequence(edges, e => Untouched(e, id));
    RemoveNodeKeepsIntact(nodes, edges, id);
    FilterKeepsDistinct(nodes, n => NotNode(n, id), NodeId);
    FilterKeepsDistinct(edges, e => Untouched(e, id), EdgeId);
  }

  /**
   * The editor component: the two state lists, replaced wholesale by each handler.
   * Valid() is the referential integrity the handlers keep, plus identifier uniqueness
   * that follows from every new identifier being fresh.
   */
  class Editor {
    var nodes: seq<Node>
    var edges: seq<Edge>

    ghost predicate Valid()
      reads this
    {
      Intact(nodes, edges) && DistinctNodeIds(nodes) && DistinctEdgeIds(edges)
    }

    constructor ()
      ensures Valid()
      ensures nodes == InitialNodes() && edges == []
    {
      nodes := InitialNodes();
      edges := [];
    }

    /** Appends a node with an empty name and the first type; `id` stands for a fresh UUID. */
    method AddNode(id: Id)
      requires Valid() && id !in NodeIds(nodes)
      modifies this
      ensures Valid()
      ensures nodes == old(nodes) + [Node(id, "", Type1)]
      ensures edges == old(edges)
    {
      var added := nodes + [Node(id, "", Type1)];
      forall x | x in NodeIds(nodes) ensures x in NodeIds(added) {
        var i :| 0 <= i < |nodes| && nodes[i].id == x;
        assert added[i] == nodes[i];
      }
      forall i | 0 <= i < |nodes| ensures nodes[i].id != id {
        assert nodes[i].id in NodeIds(nodes);
      }
      nodes := added;
    }

    /** Changes one field of the node(s) with identifier `id`. */
    method UpdateNode(id: Id, change: NodeChange)
      requires Valid()
      modifies this
      ensures Valid()
      ensures nodes == UpdateNodes(old(nodes), id, change)
      ensures edges == old(edges)
    {
      UpdateNodesKeepsIds(nodes, id, change);
      nodes := UpdateNodes(nodes, id, change);
    }

    /** Removes the node and every edge that starts or ends at it. */
    method RemoveNode(id: Id)
      requires Valid()
      modifies this
      ensures Valid()
      ensures nodes == NodesWithout(old(nodes), id)
      ensures edges == EdgesAvoiding(old(edges), id)
      ensures id !in NodeIds(nodes)
      ensures forall i :: 0 <= i < |edges| ==> edges[i].upstream != id && edges[i].downstream != id
      ensures forall i :: 0 <= i < |old(nodes)| && old(nodes)[i].id != id ==> old(nodes)[i] in nodes
      ensures forall i :: 0 <= i < |old(edges)| && Untouched(old(edges)[i], id) ==> old(edges)[i] in edges
      ensures Seqs.IsSubsequence(nodes, old(nodes)) && Seqs.IsSubsequence(edges, old(edges))
    {
      var ns, es := NodesWithout(nodes, id), EdgesAvoiding(edges, id);
      RemoveNodeEffects(nodes, edges, id);
      nodes, edges := ns, es;
    }

    /** Connects the first node to the second; does nothing with fewer than two nodes. */
    method AddEdge(id: Id)
      requires Valid() && id !in EdgeIds(edges)
      modifies this
      ensures Valid()
      ensures nodes == old(nodes)
      ensures |old(nodes)| < 2 ==> edges == old(edges)
      ensures |old(nodes)| >= 2 ==> edges == old(edges) + [Edge(id, nodes[0].id, nodes[1].id)]
    {
      match NewEdge(nodes, id)
      case None =>
      case Some(e) =>
        assert nodes[0].id in NodeIds(nodes) && nodes[1].id in NodeIds(nodes);
        edges := edges + [e];
    }

    /** Re-targets one end of the edge(s) with identifier `id` to an existing node. */
    method UpdateEdge(id: Id, end: Endpoint, target: Id)
      requires Valid() && target in NodeIds(nodes)
      modifies this
      ensures Valid()
      ensures nodes == old(nodes)
      ensures edges == UpdateEdges(old(edges), id, end, target)
    {
      edges := UpdateEdges(edges, id, end, target);
    }

    /** Removes the edge(s) with identifier `id`. */
    method RemoveEdge(id: Id)
      requires Valid()
      modifies this
      ensures Valid()
      ensures nodes == old(nodes)
      ensures edges == EdgesWithout(old(edges), id)
      ensures id !in EdgeIds(edges)
      ensures forall i :: 0 <= i < |old(edges)| && old(edges)[i].id != id ==> old(edges)[i] in edges
      ensures Seqs.IsSubsequence(edges, old(edges))
    {
      Seqs.FilterIsSubsequence(edges, e => NotEdge(e, id));
      FilterKeepsDistinct(edges, e => NotEdge(e, id), EdgeId);
      edges := EdgesWithout(edges, id);
    }
  }
}
