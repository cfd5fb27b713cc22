/** The state graph of pkg/planner/astar/state_graph.go, and what a path through it is. */
module StateGraphs {
  import opened Types

  /** What an actuator attaches to an action: nothing, integers or strings, each under a key. */
  datatype Properties = NoProperties | Integers(ints: map<string, int>) | Strings(strings: map<string, string>)

  datatype Action = Action(name: string, properties: Properties)

  /**
   * A node holds a pointer to a state: two nodes are the same only if they hold the same pointer,
   * however equal the states behind two pointers may be.
   */
  datatype Node = Node(address: nat, value: State)

  datatype Edge = Edge(node: Node, utility: real, action: Action)

  type Successors = map<Node, seq<Edge>>

  /** A node without an entry has no successors. */
  function Out(g: Successors, n: Node): seq<Edge>
  {
    if n in g then g[n] else []
  }

  function WithEdge(g: Successors, src: Node, e: Edge): Successors
  {
    g[src := Out(g, src) + [e]]
  }

  /** The edge comes last among those of its source, and no other node is concerned. */
  lemma EdgeIsAppended(g: Successors, src: Node, e: Edge)
    ensures WithEdge(g, src, e).Keys == g.Keys + {src}
    ensures WithEdge(g, src, e)[src] == (if src in g then g[src] else []) + [e]
    ensures forall n :: n in g && n != src ==> WithEdge(g, src, e)[n] == g[n]
  {
  }

  class StateGraph {
    var nodes: seq<Node>
    var successors: Successors

    constructor ()
      ensures nodes == [] && successors == map[]
    {
      nodes := [];
      successors := map[];
    }

    method AddNode(node: Node)
      modifies `nodes
      ensures nodes == old(nodes) + [node]
    {
      nodes := nodes + [node];
    }

    method AddEdge(src: Node, trg: Node, utility: real, action: Action)
      modifies `successors
      ensures successors == WithEdge(old(successors), src, Edge(trg, utility, action))
    {
      var edges := if src in successors then successors[src] else [];
      successors := successors[src := edges + [Edge(trg, utility, action)]];
    }
  }

  /** A way through the graph, grown at its end: stay where you are, or go somewhere and then along one more edge. */
  datatype Walk = Stay | Then(before: Walk, edge: Edge)

  function Length(w: Walk): nat
  {
    if w.Stay? then 0 else Length(w.before) + 1
  }

  function End(s: Node, w: Walk): Node
  {
    if w.Stay? then s else w.edge.node
  }

  /** Every edge of w leaves from where w was before it. */
  ghost predicate IsWalk(g: Successors, s: Node, w: Walk)
  {
    w.Then? ==> IsWalk(g, s, w.before) && w.edge in Out(g, End(s, w.before))
  }

  ghost predicate IsRoute(g: Successors, s: Node, w: Walk, t: Node)
  {
    IsWalk(g, s, w) && End(s, w) == t
  }

  ghost predicate Reachable(g: Successors, s: Node, t: Node)
  {
    exists w :: IsRoute(g, s, w, t)
  }

  /** The nodes of a walk in order, both ends included. */
  function Nodes(s: Node, w: Walk): (ns: seq<Node>)
    ensures |ns| == Length(w) + 1 && ns[0] == s && ns[Length(w)] == End(s, w)
  {
    if w.Stay? then [s] else Nodes(s, w.before) + [w.edge.node]
  }

  function Actions(w: Walk): (actions: seq<Action>)
    ensures |actions| == Length(w)
  {
    if w.Stay? then [] else Actions(w.before) + [w.edge.action]
  }

  ghost function Visited(s: Node, w: Walk): (ns: set<Node>)
    ensures s in ns && End(s, w) in ns
  {
    if w.Stay? then {s} else Visited(s, w.before) + {w.edge.node}
  }

  /** No node is visited twice. */
  ghost predicate Simple(s: Node, w: Walk)
  {
    w.Then? ==> Simple(s, w.before) && w.edge.node !in Visited(s, w.before)
  }

  ghost predicate Distinct<T>(s: seq<T>)
  {
    forall i, j :: 0 <= i < j < |s| ==> s[i] != s[j]
  }

  /** Without utilities every edge counts 1. */
  function Weight(e: Edge, useUtility: bool): real
  {
    if useUtility then e.utility else 1.0
  }

  function Cost(w: Walk, useUtility: bool): real
  {
    if w.Stay? then 0.0 else Cost(w.before, useUtility) + Weight(w.edge, useUtility)
  }

  ghost predicate NonNegative(g: Successors, useUtility: bool)
  {
    forall n :: n in g ==> NonNegativeOut(g[n], useUtility)
  }

  ghost predicate NonNegativeOut(edges: seq<Edge>, useUtility: bool)
  {
    forall e :: e in edges ==> Weight(e, useUtility) >= 0.0
  }

  lemma WeightNonNegative(g: Successors, n: Node, e: Edge, u: bool)
    requires NonNegative(g, u) && e in Out(g, n)
    ensures Weight(e, u) >= 0.0
  {
    assert NonNegativeOut(g[n], u);
  }

  lemma {:induction false} CostNonNegative(g: Successors, s: Node, w: Walk, u: bool)
    requires IsWalk(g, s, w) && NonNegative(g, u)
    ensures Cost(w, u) >= 0.0
  {
    if w.Then? {
      CostNonNegative(g, s, w.before, u);
      WeightNonNegative(g, End(s, w.before), w.edge, u);
    }
  }

  lemma {:induction false} CostIsLength(w: Walk)
    ensures Cost(w, false) == Length(w) as real
  {
    if w.Then? {
      CostIsLength(w.before);
    }
  }

  /** Simple walks cannot be longer than there are nodes. */
  lemma {:induction false} SimpleVisits(s: Node, w: Walk)
    requires Simple(s, w)
    ensures |Visited(s, w)| == Length(w) + 1
  {
    if w.Then? {
      SimpleVisits(s, w.before);
    }
  }
}
