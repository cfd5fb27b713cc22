/** The A* search of pkg/planner/astar/astar.go. */
module AStar {
  import opened Types
  import opened StateGraphs
  import opened PriorityQueues
  import Heap

  type Heuristic = (Node, Node, Profiles) -> real

  /** How a node was last reached; Done marks the start of the search. */
  datatype DataEntry = Done | Via(node: Node, action: Action)

  type Data = map<Node, DataEntry>

  // ---------------------------------------------------------------- predecessor chains

  /** Following predecessors from n reaches a Done entry after exactly k steps. */
  ghost predicate Rooted(data: Data, n: Node, k: nat)
    decreases k
  {
    n in data && if k == 0 then data[n].Done? else data[n].Via? && Rooted(data, data[n].node, k - 1)
  }

  ghost predicate IsRooted(data: Data, n: Node)
  {
    exists k: nat :: Rooted(data, n, k)
  }

  ghost function RootDepth(data: Data, n: Node): (k: nat)
    requires IsRooted(data, n)
    ensures Rooted(data, n, k)
  {
    var k: nat :| Rooted(data, n, k);
    k
  }

  ghost function ChainNodes(data: Data, n: Node, k: nat): (ns: seq<Node>)
    requires Rooted(data, n, k)
    ensures |ns| == k + 1 && ns[k] == n
    decreases k
  {
    if k == 0 then [n] else ChainNodes(data, data[n].node, k - 1) + [n]
  }

  ghost function ChainActions(data: Data, n: Node, k: nat): (steps: seq<Action>)
    requires Rooted(data, n, k)
    ensures |steps| == k
    decreases k
  {
    if k == 0 then [] else ChainActions(data, data[n].node, k - 1) + [data[n].action]
  }

  lemma {:induction false} RootedOnce(data: Data, n: Node, k: nat, l: nat)
    requires Rooted(data, n, k) && Rooted(data, n, l)
    ensures k == l
    decreases k
  {
    if k > 0 && l > 0 {
      RootedOnce(data, data[n].node, k - 1, l - 1);
    }
  }

  lemma {:induction false} ChainIsRooted(data: Data, n: Node, k: nat, i: nat)
    requires Rooted(data, n, k) && i <= k
    ensures Rooted(data, ChainNodes(data, n, k)[i], i)
    decreases k
  {
    if i < k {
      ChainIsRooted(data, data[n].node, k - 1, i);
    }
  }

  /** A chain that ends cannot visit a node twice: predecessors are acyclic. */
  lemma ChainIsSimple(data: Data, n: Node, k: nat)
    requires Rooted(data, n, k)
    ensures Distinct(ChainNodes(data, n, k))
  {
    var ns := ChainNodes(data, n, k);
    forall i, j | 0 <= i < j < |ns| ensures ns[i] != ns[j] {
      ChainIsRooted(data, n, k, i);
      ChainIsRooted(data, n, k, j);
      if ns[i] == ns[j] {
        RootedOnce(data, ns[i], i, j);
      }
    }
  }

  /** No label is smaller than its predecessor's. */
  ghost predicate Descends(score: map<Node, real>, data: Data)
  {
    && score.Keys == data.Keys
    && forall n :: n in data && data[n].Via? ==> data[n].node in score && score[data[n].node] <= score[n]
  }

  /** A chain from below the label of x does not pass x, so it survives a new predecessor of x unchanged. */
  lemma {:induction false} LowChainSurvives(score: map<Node, real>, data: Data, x: Node, entry: DataEntry, m: Node,
                                            k: nat)
    requires Descends(score, data) && Rooted(data, m, k)
    requires x in score ==> score[m] < score[x]
    ensures Rooted(data[x := entry], m, k)
    decreases k
  {
    if k > 0 {
      LowChainSurvives(score, data, x, entry, data[m].node, k - 1);
    }
  }

  /** Every chain still ends at the start: where it meets x, it now continues through the new predecessor of x. */
  lemma {:induction false} ChainSurvives(data: Data, x: Node, entry: DataEntry, m: Node, k: nat)
    requires Rooted(data, m, k) && IsRooted(data[x := entry], x)
    ensures IsRooted(data[x := entry], m)
    decreases k
  {
    var data' := data[x := entry];
    if m != x {
      if k == 0 {
        assert Rooted(data', m, 0);
      } else {
        ChainSurvives(data, x, entry, data[m].node, k - 1);
        var j := RootDepth(data', data[m].node);
        assert Rooted(data', m, j + 1);
      }
    }
  }

  /** Walks the predecessors back to the start; k is the length of the chain. */
  method ResolvePath(data: Data, last: Node, ghost k: nat) returns (path: seq<Node>, actions: seq<Action>)
    requires Rooted(data, last, k)
    ensures path == ChainNodes(data, last, k)
    ensures actions == ChainActions(data, last, k)
  {
    var current := last;
    path := [current];
    actions := [];
    ghost var left: nat := k;
    while data[current].Via?
      invariant Rooted(data, current, left) && left <= k
      invariant |path| == k - left + 1 && path[0] == current
      invariant ChainNodes(data, current, left) + path[1..] == ChainNodes(data, last, k)
      invariant ChainActions(data, current, left) + actions == ChainActions(data, last, k)
      decreases left
    {
      var entry := data[current];
      current := entry.node;
      left := left - 1;
      path := [current] + path;
      actions := [entry.action] + actions;
    }
  }

  // ---------------------------------------------------------------- the state of a search

  /** What a search is asked to do. */
  datatype Problem = Problem(g: Successors, start: Node, goal: Node, h: Heuristic, useUtility: bool, profiles: Profiles)

  /** The labels of a search, with the walk along which each node got its present label. */
  datatype Labels = Labels(score: map<Node, real>, data: Data, trail: map<Node, Walk>)

  /** n is labelled through a real edge, at no less than the predecessor's present label plus the edge. */
  ghost predicate Supported(p: Problem, l: Labels, n: Node)
  {
    && n in l.data && l.data[n].Via?
    && var m := l.data[n].node;
    && m in l.score && n in l.score
    && exists e :: e in Out(p.g, m) && e.node == n && e.action == l.data[n].action
                   && l.score[m] + Weight(e, p.useUtility) <= l.score[n]
  }

  /** Along w every node has a label no larger than the cost of getting there. */
  ghost predicate Covers(p: Problem, score: map<Node, real>, w: Walk)
  {
    && End(p.start, w) in score && score[End(p.start, w)] <= Cost(w, p.useUtility)
    && (w.Then? ==> Covers(p, score, w.before))
  }

  /** The present label of n is the cost of a simple walk, along which all labels have since at best improved. */
  ghost predicate Trailed(p: Problem, l: Labels, n: Node)
  {
    && n in l.trail && n in l.score
    && IsRoute(p.g, p.start, l.trail[n], n) && Simple(p.start, l.trail[n])
    && Cost(l.trail[n], p.useUtility) == l.score[n]
    && Covers(p, l.score, l.trail[n])
  }

  ghost predicate AllSupported(p: Problem, l: Labels)
  {
    forall n :: n in l.score && n != p.start ==> Supported(p, l, n)
  }

  ghost predicate AllTrailed(p: Problem, l: Labels)
  {
    forall n :: n in l.score ==> Trailed(p, l, n)
  }

  ghost predicate AllRooted(data: Data)
  {
    forall n :: n in data ==> IsRooted(data, n)
  }

  ghost predicate Labelled(p: Problem, l: Labels)
  {
    && l.score.Keys == l.data.Keys == l.trail.Keys
    && p.start in l.score && l.score[p.start] == 0.0 && l.data[p.start].Done?
    && AllSupported(p, l) && AllTrailed(p, l) && AllRooted(l.data)
  }

  ghost predicate Improves(p: Problem, l: Labels, u: Node, e: Edge)
  {
    && u in l.score && u in l.trail && e in Out(p.g, u)
    && (e.node in l.score ==> l.score[u] + Weight(e, p.useUtility) < l.score[e.node])
  }

  ghost function Relaxed(p: Problem, l: Labels, u: Node, e: Edge): Labels
    requires Improves(p, l, u, e)
  {
    Labels(l.score[e.node := l.score[u] + Weight(e, p.useUtility)],
           l.data[e.node := Via(u, e.action)],
           l.trail[e.node := Then(l.trail[u], e)])
  }

  /** A node on a covered walk cannot be improved by going on from the end of that walk. */
  lemma {:induction false} CoveredCannotImprove(p: Problem, score: map<Node, real>, w: Walk, n: Node)
    requires NonNegative(p.g, p.useUtility) && IsWalk(p.g, p.start, w) && Covers(p, score, w)
    requires n in Visited(p.start, w)
    ensures n in score && score[n] <= Cost(w, p.useUtility)
  {
    if w.Then? && n != w.edge.node {
      CoveredCannotImprove(p, score, w.before, n);
      WeightNonNegative(p.g, End(p.start, w.before), w.edge, p.useUtility);
    }
  }

  lemma {:induction false} CoversImproves(p: Problem, score: map<Node, real>, n: Node, x: real, w: Walk)
    requires Covers(p, score, w) && (n in score ==> x <= score[n])
    ensures Covers(p, score[n := x], w)
  {
    if w.Then? {
      CoversImproves(p, score, n, x, w.before);
    }
  }

  lemma RelaxMakesTrail(p: Problem, l: Labels, u: Node, e: Edge)
    requires NonNegative(p.g, p.useUtility) && Improves(p, l, u, e) && Trailed(p, l, u)
    ensures Trailed(p, Relaxed(p, l, u, e), e.node) && e.node != p.start && e.node != u
  {
    var v, x := l.trail[u], l.score[u] + Weight(e, p.useUtility);
    WeightNonNegative(p.g, u, e, p.useUtility);
    assert e.node !in Visited(p.start, v) by {
      if e.node in Visited(p.start, v) {
        CoveredCannotImprove(p, l.score, v, e.node);
      }
    }
    CoversImproves(p, l.score, e.node, x, v);
  }

  lemma RelaxKeepsTrails(p: Problem, l: Labels, u: Node, e: Edge)
    requires AllTrailed(p, l) && NonNegative(p.g, p.useUtility) && Improves(p, l, u, e)
    ensures AllTrailed(p, Relaxed(p, l, u, e)) && e.node != p.start && e.node != u
  {
    var l' := Relaxed(p, l, u, e);
    assert Trailed(p, l, u);
    RelaxMakesTrail(p, l, u, e);
    forall n | n in l'.score ensures Trailed(p, l', n) {
      if n != e.node {
        assert Trailed(p, l, n);
        CoversImproves(p, l.score, e.node, l'.score[e.node], l.trail[n]);
      }
    }
  }

  /** The edge through which a labelled node other than the start got its label. */
  ghost function SupportingEdge(p: Problem, l: Labels, n: Node): (e: Edge)
    requires Supported(p, l, n)
    ensures e in Out(p.g, l.data[n].node) && e.node == n && e.action == l.data[n].action
    ensures l.score[l.data[n].node] + Weight(e, p.useUtility) <= l.score[n]
  {
    var e :| e in Out(p.g, l.data[n].node) && e.node == n && e.action == l.data[n].action
             && l.score[l.data[n].node] + Weight(e, p.useUtility) <= l.score[n];
    e
  }

  lemma RelaxKeepsSupport(p: Problem, l: Labels, u: Node, e: Edge)
    requires AllSupported(p, l) && Improves(p, l, u, e) && e.node != u && e.node != p.start
    ensures AllSupported(p, Relaxed(p, l, u, e))
  {
    var l' := Relaxed(p, l, u, e);
    forall n | n in l'.score && n != p.start ensures Supported(p, l', n) {
      if n != e.node {
        assert Supported(p, l, n);
        var f := SupportingEdge(p, l, n);
      }
    }
  }

  lemma LabelsDescend(p: Problem, l: Labels)
    requires Labelled(p, l) && NonNegative(p.g, p.useUtility)
    ensures Descends(l.score, l.data)
  {
    forall n | n in l.data && l.data[n].Via?
      ensures l.data[n].node in l.score && l.score[l.data[n].node] <= l.score[n]
    {
      assert Supported(p, l, n);
      var e := SupportingEdge(p, l, n);
      WeightNonNegative(p.g, l.data[n].node, e, p.useUtility);
    }
  }

  lemma RelaxKeepsRoots(p: Problem, l: Labels, u: Node, e: Edge)
    requires Descends(l.score, l.data) && AllRooted(l.data)
    requires NonNegative(p.g, p.useUtility) && Improves(p, l, u, e)
    ensures AllRooted(Relaxed(p, l, u, e).data)
  {
    var entry := Via(u, e.action);
    var data' := l.data[e.node := entry];
    WeightNonNegative(p.g, u, e, p.useUtility);
    assert Rooted(data', e.node, RootDepth(l.data, u) + 1) by {
      LowChainSurvives(l.score, l.data, e.node, entry, u, RootDepth(l.data, u));
    }
    forall n | n in data' ensures IsRooted(data', n) {
      if n != e.node {
        ChainSurvives(l.data, e.node, entry, n, RootDepth(l.data, n));
      }
    }
  }

  /** One relaxation keeps everything that is claimed of the labels. */
  lemma RelaxKeepsLabels(p: Problem, l: Labels, u: Node, e: Edge)
    requires Labelled(p, l) && NonNegative(p.g, p.useUtility) && Improves(p, l, u, e)
    ensures Labelled(p, Relaxed(p, l, u, e)) && e.node != p.start && e.node != u
  {
    hide AllSupported, AllTrailed, AllRooted, Descends, NonNegative;
    LabelsDescend(p, l);
    RelaxKeepsTrails(p, l, u, e);
    RelaxKeepsSupport(p, l, u, e);
    RelaxKeepsRoots(p, l, u, e);
    var l' := Relaxed(p, l, u, e);
    assert l'.score.Keys == l'.data.Keys == l'.trail.Keys == l.score.Keys + {e.node};
  }

  // ---------------------------------------------------------------- how high a way leads

  function Max(a: real, b: real): real
  {
    if a < b then b else a
  }

  /** The greatest value of cost so far plus heuristic at the nodes of v; the start counts as 0. */
  ghost function Peak(p: Problem, v: Walk): real
  {
    if v.Stay? then 0.0
    else Max(Cost(v, p.useUtility) + p.h(v.edge.node, p.goal, p.profiles), Peak(p, v.before))
  }

  /** How high the search must climb to follow w: the peak before its last node, or the cost of w if that is more. */
  ghost function Height(p: Problem, w: Walk): real
  {
    if w.Stay? then 0.0 else Max(Cost(w, p.useUtility), Peak(p, w.before))
  }

  /** The heuristic does not overestimate the rest of a walk of the given total cost, at v and at the nodes before v. */
  ghost predicate Honest(p: Problem, v: Walk, total: real)
  {
    v.Then? ==> p.h(v.edge.node, p.goal, p.profiles) <= total - Cost(v, p.useUtility) && Honest(p, v.before, total)
  }

  lemma {:induction false} HonestPeak(p: Problem, v: Walk, total: real)
    requires Honest(p, v, total) && 0.0 <= total
    ensures Peak(p, v) <= total
  {
    if v.Then? {
      HonestPeak(p, v.before, total);
    }
  }

  /** Where the heuristic never overestimates, a way leads no higher than it costs. */
  lemma HonestHeight(p: Problem, w: Walk)
    requires NonNegative(p.g, p.useUtility) && IsWalk(p.g, p.start, w)
    requires w.Then? ==> Honest(p, w.before, Cost(w, p.useUtility))
    ensures Height(p, w) == Cost(w, p.useUtility)
  {
    CostNonNegative(p.g, p.start, w, p.useUtility);
    if w.Then? {
      HonestPeak(p, w.before, Cost(w, p.useUtility));
    }
  }

  /** Some way to the goal leads no higher than `total`; the heuristic must know the goal for what it is. */
  ghost predicate Passable(p: Problem, total: real)
  {
    && 0.0 <= total && p.h(p.goal, p.goal, p.profiles) == 0.0
    && exists w :: IsRoute(p.g, p.start, w, p.goal) && Height(p, w) <= total
  }

  /** The label of m, with the heuristic, is no higher than any way to the goal. */
  ghost predicate IsLow(p: Problem, score: map<Node, real>, m: Node)
  {
    || m == p.start
    || (m in score && forall total :: Passable(p, total) ==> score[m] + p.h(m, p.goal, p.profiles) <= total)
  }

  /** Whatever was left along an edge that is now a predecessor's was low at the time, and labels only fall. */
  ghost predicate AllLow(p: Problem, l: Labels)
  {
    forall n :: n in l.data && l.data[n].Via? ==> IsLow(p, l.score, l.data[n].node)
  }

  lemma RelaxKeepsLow(p: Problem, l: Labels, u: Node, e: Edge)
    requires Improves(p, l, u, e) && e.node != u && AllLow(p, l) && IsLow(p, l.score, u)
    ensures AllLow(p, Relaxed(p, l, u, e)) && IsLow(p, Relaxed(p, l, u, e).score, u)
  {
    hide Passable;
    var l' := Relaxed(p, l, u, e);
    forall n | n in l'.data && l'.data[n].Via? ensures IsLow(p, l'.score, l'.data[n].node) {
      if n != e.node {
        assert IsLow(p, l.score, l.data[n].node);
      }
    }
  }

  /** The chain of a label is a walk through the graph that costs no more than the label says, and is nowhere high. */
  lemma {:induction false} ChainIsRoute(p: Problem, l: Labels, n: Node, k: nat) returns (w: Walk)
    requires Labelled(p, l) && AllLow(p, l) && n in l.score && Rooted(l.data, n, k)
    ensures IsRoute(p.g, p.start, w, n) && Cost(w, p.useUtility) <= l.score[n]
    ensures Nodes(p.start, w) == ChainNodes(l.data, n, k)
    ensures Actions(w) == ChainActions(l.data, n, k)
    ensures w.Then? <==> n != p.start
    ensures w.Then? ==> forall total :: Passable(p, total) ==> Peak(p, w.before) <= total
    decreases k
  {
    hide AllTrailed, AllRooted;
    if n == p.start {
      w := Stay;
    } else {
      assert Supported(p, l, n);
      var m, e := l.data[n].node, SupportingEdge(p, l, n);
      var v := ChainIsRoute(p, l, m, k - 1);
      w := Then(v, e);
      ChainGoesOn(p, l, n, k, v, e);
    }
  }

  lemma ChainGoesOn(p: Problem, l: Labels, n: Node, k: nat, v: Walk, e: Edge)
    requires AllLow(p, l) && Rooted(l.data, n, k) && k > 0 && n in l.score && n != p.start
    requires var m := l.data[n].node;
             && m in l.score && e in Out(p.g, m) && e.node == n && e.action == l.data[n].action
             && l.score[m] + Weight(e, p.useUtility) <= l.score[n]
             && IsRoute(p.g, p.start, v, m) && Cost(v, p.useUtility) <= l.score[m] && (v.Then? <==> m != p.start)
             && Nodes(p.start, v) == ChainNodes(l.data, m, k - 1) && Actions(v) == ChainActions(l.data, m, k - 1)
    requires v.Then? ==> forall total :: Passable(p, total) ==> Peak(p, v.before) <= total
    ensures IsRoute(p.g, p.start, Then(v, e), n) && Cost(Then(v, e), p.useUtility) <= l.score[n]
    ensures Nodes(p.start, Then(v, e)) == ChainNodes(l.data, n, k)
    ensures Actions(Then(v, e)) == ChainActions(l.data, n, k)
    ensures forall total :: Passable(p, total) ==> Peak(p, v) <= total
  {
    assert IsWalk(p.g, p.start, Then(v, e));
    assert IsLow(p, l.score, l.data[n].node);
  }

  // ---------------------------------------------------------------- why the search ends

  ghost function Universe(g: Successors, s: Node): set<Node>
  {
    {s} + set n, i | n in g.Keys && 0 <= i < |g[n]| :: g[n][i].node
  }

  ghost function WalksWithin(g: Successors, s: Node, k: nat): set<Walk>
  {
    if k == 0 then {Stay} else
      var shorter := WalksWithin(g, s, k - 1);
      shorter + set w, e | w in shorter && e in Out(g, End(s, w)) :: Then(w, e)
  }

  lemma {:induction false} WalksAreWithin(g: Successors, s: Node, w: Walk, k: nat)
    requires IsWalk(g, s, w) && Length(w) <= k
    ensures w in WalksWithin(g, s, k)
    decreases k
  {
    if k > 0 {
      if w.Then? {
        WalksAreWithin(g, s, w.before, k - 1);
        assert w == Then(w.before, w.edge);
      } else {
        WalksAreWithin(g, s, w, k - 1);
      }
    }
  }

  lemma {:induction false} WalksStayInUniverse(g: Successors, s: Node, w: Walk)
    requires IsWalk(g, s, w)
    ensures Visited(s, w) <= Universe(g, s)
  {
    if w.Then? {
      WalksStayInUniverse(g, s, w.before);
      var n := End(s, w.before);
      var i :| 0 <= i < |g[n]| && g[n][i] == w.edge;
    }
  }

  lemma {:induction false} SubsetIsSmaller<T>(a: set<T>, b: set<T>)
    requires a <= b
    ensures |a| <= |b|
  {
    if a != {} {
      var x :| x in a;
      SubsetIsSmaller(a - {x}, b - {x});
    }
  }

  /** What simple walks can cost: finitely many values, and every label is one of them. */
  ghost function SimpleCosts(p: Problem): set<real>
  {
    set w | w in WalksWithin(p.g, p.start, |Universe(p.g, p.start)|) :: Cost(w, p.useUtility)
  }

  lemma SimpleCostsComplete(p: Problem, w: Walk)
    requires IsWalk(p.g, p.start, w) && Simple(p.start, w)
    ensures Cost(w, p.useUtility) in SimpleCosts(p) && End(p.start, w) in Universe(p.g, p.start)
  {
    SimpleVisits(p.start, w);
    WalksStayInUniverse(p.g, p.start, w);
    SubsetIsSmaller(Visited(p.start, w), Universe(p.g, p.start));
    WalksAreWithin(p.g, p.start, w, |Universe(p.g, p.start)|);
  }

  /** The labels a search may still hand out. */
  ghost function Better(p: Problem, score: map<Node, real>): set<(Node, real)>
  {
    set n, c | n in Universe(p.g, p.start) && c in SimpleCosts(p) && (n in score ==> c < score[n]) :: (n, c)
  }

  ghost function Room(p: Problem, score: map<Node, real>): nat
  {
    |Better(p, score)|
  }

  /** Each relaxation hands out one of them, and takes none back. */
  lemma RelaxShrinks(p: Problem, l: Labels, u: Node, e: Edge)
    requires Labelled(p, l) && NonNegative(p.g, p.useUtility) && Improves(p, l, u, e)
    ensures Room(p, Relaxed(p, l, u, e).score) < Room(p, l.score)
  {
    hide SimpleCosts, Universe, AllRooted, AllSupported, Covers;
    var l' := Relaxed(p, l, u, e);
    RelaxKeepsTrails(p, l, u, e);
    assert Trailed(p, l', e.node);
    SimpleCostsComplete(p, l'.trail[e.node]);
    var handedOut := (e.node, l'.score[e.node]);
    assert handedOut in Better(p, l.score) && handedOut !in Better(p, l'.score);
    SubsetIsSmaller(Better(p, l'.score), Better(p, l.score) - {handedOut});
  }

  // ---------------------------------------------------------------- the search, step by step

  /** What a search holds between two expansions: labels, predecessors, and the nodes waiting at their priorities. */
  datatype Snapshot = Snapshot(score: map<Node, real>, data: Data, waiting: Waiting)

  function Initial(p: Problem): Snapshot
  {
    Snapshot(map[p.start := 0.0], map[p.start := Done], multiset{(p.start, 0.0)})
  }

  function RelaxEdge(p: Problem, c: Snapshot, u: Node, e: Edge): Snapshot
    requires u in c.score
  {
    var label' := c.score[u] + Weight(e, p.useUtility);
    if e.node !in c.score || label' < c.score[e.node] then
      Snapshot(c.score[e.node := label'], c.data[e.node := Via(u, e.action)],
             c.waiting + multiset{(e.node, label' + p.h(e.node, p.goal, p.profiles))})
    else c
  }

  /** Relaxes the first i edges out of u. */
  function RelaxEdges(p: Problem, c: Snapshot, u: Node, i: nat): (c': Snapshot)
    requires u in c.score && i <= |Out(p.g, u)|
    ensures u in c'.score
  {
    if i == 0 then c else RelaxEdge(p, RelaxEdges(p, c, u, i - 1), u, Out(p.g, u)[i - 1])
  }

  /** n waits at priority x, and nothing waits at less. */
  ghost predicate Pops(c: Snapshot, n: Node, x: real)
  {
    (n, x) in c.waiting && forall m, y :: (m, y) in c.waiting ==> x <= y
  }

  /** One turn of the outer loop: any node waiting at the least priority is expanded, unless it is the goal. */
  ghost predicate Next(p: Problem, c: Snapshot, c': Snapshot)
  {
    exists n, x :: Pops(c, n, x) && n != p.goal && Expands(p, c, n, x, c')
  }

  ghost predicate Expands(p: Problem, c: Snapshot, n: Node, x: real, c': Snapshot)
  {
    n in c.score && c' == RelaxEdges(p, c.(waiting := c.waiting - multiset{(n, x)}), n, |Out(p.g, n)|)
  }

  ghost predicate IsRun(p: Problem, cs: seq<Snapshot>)
  {
    cs != [] && cs[0] == Initial(p) && forall i :: 0 <= i < |cs| - 1 ==> Next(p, cs[i], cs[i + 1])
  }

  /** The path of predecessors from the goal, if the goal is what is taken next. */
  ghost predicate TakesGoal(p: Problem, c: Snapshot, path: seq<Node>)
  {
    exists x, k: nat :: Pops(c, p.goal, x) && IsChain(c.data, p.goal, k, path)
  }

  ghost predicate IsChain(data: Data, n: Node, k: nat, path: seq<Node>)
  {
    Rooted(data, n, k) && path == ChainNodes(data, n, k)
  }

  // ---------------------------------------------------------------- what every step keeps

  /** Nodes wait at priorities; a node may wait more than once. */
  type Waiting = multiset<(Node, real)>

  ghost function Priority(p: Problem, n: Node, g: real): real
  {
    if n == p.start then 0.0 else g + p.h(n, p.goal, p.profiles)
  }

  /** n waits at the priority of its present label. */
  ghost predicate Waits(p: Problem, score: map<Node, real>, waiting: Waiting, n: Node)
    requires n in score
  {
    (n, Priority(p, n, score[n])) in waiting
  }

  /** Nodes wait at the priorities of present or older, that is larger, labels. */
  ghost predicate ItemsLag(p: Problem, score: map<Node, real>, waiting: Waiting)
  {
    forall n, x :: (n, x) in waiting ==> n in score && x >= Priority(p, n, score[n])
  }

  /** Every labelled node not in `closed` waits with its present label. */
  ghost predicate OthersWait(p: Problem, score: map<Node, real>, waiting: Waiting, closed: set<Node>)
  {
    forall n :: n in score && n !in closed ==> Waits(p, score, waiting, n)
  }

  /** The first i edges out of n offer no improvement. */
  ghost predicate Exhausted(p: Problem, score: map<Node, real>, n: Node, i: nat)
  {
    n in score && forall j :: 0 <= j < i && j < |Out(p.g, n)| ==>
      var e := Out(p.g, n)[j];
      e.node in score && score[e.node] <= score[n] + Weight(e, p.useUtility)
  }

  ghost predicate AllExhausted(p: Problem, score: map<Node, real>, closed: set<Node>)
  {
    forall n :: n in closed ==> Exhausted(p, score, n, |Out(p.g, n)|)
  }

  lemma ClosedEdge(p: Problem, score: map<Node, real>, n: Node, e: Edge)
    requires Exhausted(p, score, n, |Out(p.g, n)|) && e in Out(p.g, n)
    ensures e.node in score && score[e.node] <= score[n] + Weight(e, p.useUtility)
  {
  }

  /** Either w has been followed to its end at no more than its cost, or a node waits no higher than w leads. */
  lemma {:induction false} FollowedOrQueued(p: Problem, score: map<Node, real>, waiting: Waiting, closed: set<Node>,
                                            w: Walk, total: real)
    requires p.start in score && score[p.start] == 0.0 && 0.0 <= total
    requires OthersWait(p, score, waiting, closed) && AllExhausted(p, score, closed)
    requires IsWalk(p.g, p.start, w) && (w.Then? ==> Peak(p, w.before) <= total)
    ensures || (End(p.start, w) in score && score[End(p.start, w)] <= Cost(w, p.useUtility))
            || exists n, x :: (n, x) in waiting && x <= total
  {
    if w.Then? {
      var n := End(p.start, w.before);
      FollowedOrQueued(p, score, waiting, closed, w.before, total);
      if n in score && score[n] <= Cost(w.before, p.useUtility) {
        if n in closed {
          ClosedEdge(p, score, n, w.edge);
        } else {
          assert Waits(p, score, waiting, n);
        }
      }
    }
  }

  /** What holds of labels and waiting nodes between two expansions. */
  ghost predicate Between(p: Problem, l: Labels, waiting: Waiting, closed: set<Node>)
  {
    && Labelled(p, l) && AllLow(p, l) && ItemsLag(p, l.score, waiting) && OthersWait(p, l.score, waiting, closed)
    && AllExhausted(p, l.score, closed) && p.goal !in closed
  }

  /** What holds while u is expanded and its first i edges are done. */
  ghost predicate Expanding(p: Problem, l: Labels, waiting: Waiting, closed: set<Node>, u: Node, i: nat)
  {
    && Labelled(p, l) && AllLow(p, l) && ItemsLag(p, l.score, waiting)
    && OthersWait(p, l.score, waiting, closed + {u}) && AllExhausted(p, l.score, closed - {u})
    && p.goal !in closed && Exhausted(p, l.score, u, i) && IsLow(p, l.score, u)
  }

  /** l and closed explain the snapshot. */
  ghost predicate Holds(p: Problem, c: Snapshot, l: Labels, closed: set<Node>)
  {
    Between(p, l, c.waiting, closed) && l.score == c.score && l.data == c.data
  }

  ghost function InitialLabels(p: Problem): Labels
  {
    Labels(Initial(p).score, Initial(p).data, map[p.start := Stay])
  }

  lemma InitialHolds(p: Problem)
    ensures Holds(p, Initial(p), InitialLabels(p), {})
  {
    hide Labelled;
    InitialIsLabelled(p);
  }

  lemma InitialIsLabelled(p: Problem)
    ensures Labelled(p, InitialLabels(p))
  {
    assert Rooted(map[p.start := Done], p.start, 0);
  }

  /** What is taken next waits no higher than any way to the goal leads. */
  lemma NextIsBelow(p: Problem, c: Snapshot, l: Labels, closed: set<Node>, n: Node, x: real, w: Walk)
    requires Holds(p, c, l, closed) && NonNegative(p.g, p.useUtility) && Pops(c, n, x)
    requires IsRoute(p.g, p.start, w, p.goal) && (p.h(p.goal, p.goal, p.profiles) == 0.0 || n == p.goal)
    ensures x <= Height(p, w) || (p.goal in c.score && n == p.goal && c.score[n] <= Cost(w, p.useUtility))
  {
    hide Labelled, AllLow;
    StartScore(p, l);
    CostNonNegative(p.g, p.start, w, p.useUtility);
    FollowedOrQueued(p, c.score, c.waiting, closed, w, Height(p, w));
    if p.goal in c.score && c.score[p.goal] <= Cost(w, p.useUtility) {
      assert Waits(p, c.score, c.waiting, p.goal);
    }
  }

  lemma StartScore(p: Problem, l: Labels)
    requires Labelled(p, l)
    ensures p.start in l.score && l.score[p.start] == 0.0
  {
  }

  lemma NextIsLow(p: Problem, c: Snapshot, l: Labels, closed: set<Node>, n: Node, x: real)
    requires Holds(p, c, l, closed) && NonNegative(p.g, p.useUtility) && Pops(c, n, x)
    ensures n in l.score && IsLow(p, l.score, n)
  {
    hide Labelled, AllLow, Height, OthersWait, AllExhausted;
    if n != p.start {
      forall total | Passable(p, total) ensures l.score[n] + p.h(n, p.goal, p.profiles) <= total {
        var w :| IsRoute(p.g, p.start, w, p.goal) && Height(p, w) <= total;
        NextIsBelow(p, c, l, closed, n, x, w);
        CostIsBelow(p, w);
      }
    }
  }

  lemma CostIsBelow(p: Problem, w: Walk)
    ensures Cost(w, p.useUtility) <= Height(p, w)
  {
  }

  /** The label of the goal when it is taken. */
  lemma GoalLabelIsCheap(p: Problem, c: Snapshot, l: Labels, closed: set<Node>, x: real, w: Walk)
    requires Holds(p, c, l, closed) && NonNegative(p.g, p.useUtility) && Pops(c, p.goal, x)
    requires IsRoute(p.g, p.start, w, p.goal) && p.h(p.goal, p.goal, p.profiles) >= 0.0
    ensures p.goal in c.score && c.score[p.goal] <= Height(p, w)
  {
    hide Labelled, AllLow, Height, OthersWait, AllExhausted;
    StartScore(p, l);
    NextIsBelow(p, c, l, closed, p.goal, x, w);
    CostIsBelow(p, w);
    CostNonNegative(p.g, p.start, w, p.useUtility);
  }

  lemma BeginExpansion(p: Problem, c: Snapshot, l: Labels, closed: set<Node>, n: Node, x: real)
    requires Holds(p, c, l, closed) && NonNegative(p.g, p.useUtility) && Pops(c, n, x)
    ensures Expanding(p, l, c.waiting - multiset{(n, x)}, closed, n, 0) && n in l.score && n in l.trail
  {
    NextIsLow(p, c, l, closed, n, x);
    hide IsLow, AllLow;
    forall m | m in l.score && m !in closed + {n} ensures Waits(p, l.score, c.waiting - multiset{(n, x)}, m) {
      assert Waits(p, l.score, c.waiting, m);
    }
  }

  lemma EndExpansion(p: Problem, l: Labels, waiting: Waiting, closed: set<Node>, u: Node)
    requires Expanding(p, l, waiting, closed, u, |Out(p.g, u)|) && u != p.goal
    ensures Between(p, l, waiting, closed + {u})
  {
  }

  lemma SkipEdge(p: Problem, l: Labels, waiting: Waiting, closed: set<Node>, u: Node, i: nat)
    requires Expanding(p, l, waiting, closed, u, i) && i < |Out(p.g, u)|
    requires !Improves(p, l, u, Out(p.g, u)[i]) && u in l.trail
    ensures Expanding(p, l, waiting, closed, u, i + 1)
  {
  }

  lemma TakeEdge(p: Problem, l: Labels, waiting: Waiting, closed: set<Node>, u: Node, i: nat)
    requires NonNegative(p.g, p.useUtility)
    requires Expanding(p, l, waiting, closed, u, i) && i < |Out(p.g, u)|
    requires Improves(p, l, u, Out(p.g, u)[i])
    ensures var e := Out(p.g, u)[i];
            var x := l.score[u] + Weight(e, p.useUtility) + p.h(e.node, p.goal, p.profiles);
            && Expanding(p, Relaxed(p, l, u, e), waiting + multiset{(e.node, x)}, closed - {e.node}, u, i + 1)
            && Room(p, Relaxed(p, l, u, e).score) < Room(p, l.score)
  {
    hide Labelled, Room, AllLow, IsLow;
    var e := Out(p.g, u)[i];
    var l' := Relaxed(p, l, u, e);
    var waiting' := waiting + multiset{(e.node, l'.score[e.node] + p.h(e.node, p.goal, p.profiles))};
    RelaxKeepsLabels(p, l, u, e);
    RelaxShrinks(p, l, u, e);
    RelaxKeepsLow(p, l, u, e);
    forall n | n in l'.score && n !in closed - {e.node} + {u} ensures Waits(p, l'.score, waiting', n) {
      if n != e.node {
        assert Waits(p, l.score, waiting, n);
      }
    }
    forall n | n in closed - {e.node} - {u} ensures Exhausted(p, l'.score, n, |Out(p.g, n)|) {
      assert Exhausted(p, l.score, n, |Out(p.g, n)|);
    }
  }

  lemma NothingRelaxed(p: Problem, c: Snapshot, u: Node)
    requires u in c.score
    ensures RelaxEdges(p, c, u, 0) == c
  {
  }

  lemma RelaxOneMore(p: Problem, c: Snapshot, u: Node, i: nat, now: Snapshot)
    requires u in c.score && i < |Out(p.g, u)| && now == RelaxEdges(p, c, u, i)
    ensures u in now.score && RelaxEdges(p, c, u, i + 1) == RelaxEdge(p, now, u, Out(p.g, u)[i])
  {
  }

  /** Relaxing one edge keeps the explanation, and uses up a label if it changes anything. */
  lemma EdgeKeeps(p: Problem, now: Snapshot, l: Labels, closed: set<Node>, u: Node, i: nat)
    returns (l': Labels, closed': set<Node>)
    requires NonNegative(p.g, p.useUtility) && i < |Out(p.g, u)| && u in now.score && u in l.trail
    requires Expanding(p, l, now.waiting, closed, u, i) && l.score == now.score && l.data == now.data
    ensures var next := RelaxEdge(p, now, u, Out(p.g, u)[i]);
            && u in l'.trail && l'.score == next.score && l'.data == next.data
            && Expanding(p, l', next.waiting, closed', u, i + 1)
            && (next == now || Room(p, next.score) < Room(p, now.score))
  {
    hide Expanding, Room;
    var e := Out(p.g, u)[i];
    if Improves(p, l, u, e) {
      TakeEdge(p, l, now.waiting, closed, u, i);
      l', closed' := Relaxed(p, l, u, e), closed - {e.node};
    } else {
      SkipEdge(p, l, now.waiting, closed, u, i);
      l', closed' := l, closed;
    }
  }

  /** Relaxing i edges keeps the explanation, and uses up labels if it changes anything. */
  lemma {:induction false} ExpansionKeeps(p: Problem, c: Snapshot, l: Labels, closed: set<Node>, u: Node, i: nat)
    returns (l': Labels, closed': set<Node>)
    requires NonNegative(p.g, p.useUtility) && i <= |Out(p.g, u)| && u in c.score && u in l.trail
    requires Expanding(p, l, c.waiting, closed, u, 0) && l.score == c.score && l.data == c.data
    ensures u in l'.trail && l'.score == RelaxEdges(p, c, u, i).score && l'.data == RelaxEdges(p, c, u, i).data
    ensures Expanding(p, l', RelaxEdges(p, c, u, i).waiting, closed', u, i)
    ensures RelaxEdges(p, c, u, i) == c || Room(p, RelaxEdges(p, c, u, i).score) < Room(p, c.score)
    decreases i
  {
    hide Expanding, Room, RelaxEdges, RelaxEdge, NonNegative;
    if i == 0 {
      NothingRelaxed(p, c, u);
      l', closed' := l, closed;
    } else {
      var now := RelaxEdges(p, c, u, i - 1);
      l', closed' := ExpansionKeeps(p, c, l, closed, u, i - 1);
      RelaxOneMore(p, c, u, i - 1, now);
      l', closed' := EdgeKeeps(p, now, l', closed', u, i - 1);
    }
  }

  /** Fewer labels left to hand out, or as many and fewer nodes waiting. */
  ghost predicate Shrinks(p: Problem, c: Snapshot, c': Snapshot)
  {
    || Room(p, c'.score) < Room(p, c.score)
    || (Room(p, c'.score) == Room(p, c.score) && |c'.waiting| < |c.waiting|)
  }

  lemma ShrinksMeans(p: Problem, c: Snapshot, c': Snapshot)
    requires Shrinks(p, c, c')
    ensures || Room(p, c'.score) < Room(p, c.score)
            || (Room(p, c'.score) == Room(p, c.score) && |c'.waiting| < |c.waiting|)
  {
  }

  lemma StepKeeps(p: Problem, c: Snapshot, l: Labels, closed: set<Node>, n: Node, x: real, c': Snapshot)
    returns (l': Labels, closed': set<Node>)
    requires NonNegative(p.g, p.useUtility) && Holds(p, c, l, closed)
    requires Pops(c, n, x) && n != p.goal && Expands(p, c, n, x, c')
    ensures Holds(p, c', l', closed') && Shrinks(p, c, c')
  {
    hide RelaxEdges, Room, Between, Expanding;
    BeginExpansion(p, c, l, closed, n, x);
    var popped := c.(waiting := c.waiting - multiset{(n, x)});
    l', closed' := ExpansionKeeps(p, popped, l, closed, n, |Out(p.g, n)|);
    EndExpansion(p, l', c'.waiting, closed', n);
    closed' := closed' + {n};
  }

  lemma {:induction false} RunKeeps(p: Problem, cs: seq<Snapshot>) returns (l: Labels, closed: set<Node>)
    requires NonNegative(p.g, p.useUtility) && cs != [] && IsRun(p, cs)
    ensures Holds(p, cs[|cs| - 1], l, closed)
  {
    hide Holds, Pops, Expands;
    var i := |cs| - 1;
    if i == 0 {
      InitialHolds(p);
      l, closed := InitialLabels(p), {};
    } else {
      var before := cs[..i];
      assert IsRun(p, before);
      l, closed := RunKeeps(p, before);
      assert Next(p, cs[i - 1], cs[i - 1 + 1]);
      var n, x :| Pops(cs[i - 1], n, x) && n != p.goal && Expands(p, cs[i - 1], n, x, cs[i]);
      l, closed := StepKeeps(p, cs[i - 1], l, closed, n, x, cs[i]);
    }
  }

  /** Whatever is taken next, no run can go on for ever. */
  lemma StepShrinks(p: Problem, cs: seq<Snapshot>, c: Snapshot)
    requires NonNegative(p.g, p.useUtility) && cs != [] && IsRun(p, cs) && Next(p, cs[|cs| - 1], c)
    ensures Shrinks(p, cs[|cs| - 1], c)
  {
    hide IsRun, Pops, Expands, Shrinks, Holds;
    var l, closed := RunKeeps(p, cs);
    var n, x :| Pops(cs[|cs| - 1], n, x) && n != p.goal && Expands(p, cs[|cs| - 1], n, x, c);
    l, closed := StepKeeps(p, cs[|cs| - 1], l, closed, n, x, c);
  }

  // ---------------------------------------------------------------- what every run finds

  /** `route` costs no more than any way to the goal is high. */
  ghost predicate NoDearer(p: Problem, route: Walk)
  {
    forall w :: IsRoute(p.g, p.start, w, p.goal) ==> Cost(route, p.useUtility) <= Height(p, w)
  }

  /** `route` leads no higher than any way to the goal. */
  ghost predicate NoHigher(p: Problem, route: Walk)
  {
    forall w :: IsRoute(p.g, p.start, w, p.goal) ==> Height(p, route) <= Height(p, w)
  }

  lemma HonestIsCheapest(p: Problem, route: Walk, w: Walk)
    requires NonNegative(p.g, p.useUtility) && NoDearer(p, route) && IsRoute(p.g, p.start, w, p.goal)
    requires w.Then? ==> Honest(p, w.before, Cost(w, p.useUtility))
    ensures Cost(route, p.useUtility) <= Cost(w, p.useUtility)
  {
    HonestHeight(p, w);
  }

  /** A simple way to the goal with these nodes and actions, neither dearer nor higher than any way is high. */
  ghost predicate IsAnswer(p: Problem, path: seq<Node>, actions: seq<Action>, route: Walk)
  {
    && IsRoute(p.g, p.start, route, p.goal) && Simple(p.start, route)
    && path == Nodes(p.start, route) && actions == Actions(route)
    && (p.h(p.goal, p.goal, p.profiles) >= 0.0 ==> NoDearer(p, route))
    && (p.h(p.goal, p.goal, p.profiles) == 0.0 ==> NoHigher(p, route))
  }

  lemma {:induction false} DistinctIsSimple(s: Node, w: Walk)
    requires Distinct(Nodes(s, w))
    ensures Simple(s, w) && forall n :: n in Visited(s, w) <==> n in Nodes(s, w)
  {
    if w.Then? {
      var ns, ms := Nodes(s, w), Nodes(s, w.before);
      assert ns == ms + [w.edge.node];
      assert forall i :: 0 <= i < |ms| ==> ns[i] == ms[i];
      DistinctIsSimple(s, w.before);
    }
  }

  /** What the chain of the goal is when the goal is taken, in every run of the search. */
  lemma RunFinds(p: Problem, cs: seq<Snapshot>, x: real, k: nat) returns (route: Walk)
    requires NonNegative(p.g, p.useUtility) && cs != [] && IsRun(p, cs) && Pops(cs[|cs| - 1], p.goal, x)
    requires Rooted(cs[|cs| - 1].data, p.goal, k)
    ensures IsAnswer(p, ChainNodes(cs[|cs| - 1].data, p.goal, k), ChainActions(cs[|cs| - 1].data, p.goal, k), route)
  {
    hide Holds, IsRun, Pops, Height, Peak, Labelled, AllLow;
    var c := cs[|cs| - 1];
    var l, closed := RunKeeps(p, cs);
    HoldsLabels(p, c, l, closed, p.goal, x);
    route := ChainIsRoute(p, l, p.goal, k);
    ChainIsSimple(l.data, p.goal, k);
    DistinctIsSimple(p.start, route);
    forall w | IsRoute(p.g, p.start, w, p.goal) && p.h(p.goal, p.goal, p.profiles) >= 0.0
      ensures Cost(route, p.useUtility) <= Height(p, w)
      ensures p.h(p.goal, p.goal, p.profiles) == 0.0 ==> Height(p, route) <= Height(p, w)
    {
      GoalLabelIsCheap(p, c, l, closed, x, w);
      if p.h(p.goal, p.goal, p.profiles) == 0.0 {
        ChainIsLow(p, route, w);
      }
    }
  }

  lemma HoldsLabels(p: Problem, c: Snapshot, l: Labels, closed: set<Node>, n: Node, x: real)
    requires Holds(p, c, l, closed) && Pops(c, n, x)
    ensures Labelled(p, l) && AllLow(p, l) && l.score == c.score && l.data == c.data && n in l.score
    ensures IsRooted(c.data, n)
  {
  }

  lemma ChainIsLow(p: Problem, route: Walk, w: Walk)
    requires NonNegative(p.g, p.useUtility) && p.h(p.goal, p.goal, p.profiles) == 0.0
    requires IsRoute(p.g, p.start, w, p.goal) && Cost(route, p.useUtility) <= Height(p, w)
    requires route.Then? ==> forall total :: Passable(p, total) ==> Peak(p, route.before) <= total
    ensures Height(p, route) <= Height(p, w)
  {
    CostNonNegative(p.g, p.start, w, p.useUtility);
    CostIsBelow(p, w);
    assert Passable(p, Height(p, w));
  }

  /** Once nothing waits every labelled node has been expanded for good, and nothing else can be reached. */
  lemma {:induction false} NothingLeft(p: Problem, l: Labels, closed: set<Node>, w: Walk)
    requires Between(p, l, multiset{}, closed) && IsWalk(p.g, p.start, w)
    ensures End(p.start, w) in l.score && End(p.start, w) != p.goal
  {
    hide AllLow;
    forall n | n in l.score ensures n in closed {
      assert !Waits(p, l.score, multiset{}, n);
    }
    if w.Then? {
      NothingLeft(p, l, closed, w.before);
      ClosedEdge(p, l.score, End(p.start, w.before), w.edge);
    }
  }

  /** A run that ends with nothing waiting has shown that the goal cannot be reached. */
  lemma NothingIsLeft(p: Problem, cs: seq<Snapshot>)
    requires NonNegative(p.g, p.useUtility) && cs != [] && IsRun(p, cs) && cs[|cs| - 1].waiting == multiset{}
    ensures !Reachable(p.g, p.start, p.goal)
  {
    hide IsRun, Between;
    var l, closed := RunKeeps(p, cs);
    if w :| IsRoute(p.g, p.start, w, p.goal) {
      NothingLeft(p, l, closed, w);
    }
  }

  // ---------------------------------------------------------------- when what is found is cheapest

  ghost predicate Cheapest(p: Problem, w: Walk)
  {
    && IsRoute(p.g, p.start, w, p.goal)
    && forall v :: IsRoute(p.g, p.start, v, p.goal) ==> Cost(w, p.useUtility) <= Cost(v, p.useUtility)
  }

  ghost predicate Lowest(p: Problem, w: Walk)
  {
    IsRoute(p.g, p.start, w, p.goal) && NoHigher(p, w)
  }

  /** All lowest ways to the goal cost the same. */
  ghost predicate LowestCostTheSame(p: Problem)
  {
    forall v, w :: Lowest(p, v) && Lowest(p, w) ==> Cost(v, p.useUtility) == Cost(w, p.useUtility)
  }

  lemma LowestDecides(p: Problem, route: Walk)
    requires Lowest(p, route)
    ensures (forall w :: Lowest(p, w) ==> Cheapest(p, w)) ==> Cheapest(p, route)
    ensures Cheapest(p, route) ==> exists w :: Lowest(p, w) && Cheapest(p, w)
    ensures LowestCostTheSame(p) ==> (Cheapest(p, route) <==> exists w :: Lowest(p, w) && Cheapest(p, w))
  {
    hide NoHigher;
  }

  /**
   * Every run finds a lowest way. So if all lowest ways are cheapest, every run finds a cheapest way; and if none is,
   * no run does. If they cost the same, ties may decide which way is found, but not whether it is a cheapest one.
   */
  lemma FindsCheapestIff(p: Problem, cs: seq<Snapshot>, x: real, k: nat, path: seq<Node>) returns (route: Walk)
    requires NonNegative(p.g, p.useUtility) && p.h(p.goal, p.goal, p.profiles) == 0.0 && cs != [] && IsRun(p, cs)
    requires Pops(cs[|cs| - 1], p.goal, x) && IsChain(cs[|cs| - 1].data, p.goal, k, path)
    ensures Lowest(p, route) && path == Nodes(p.start, route)
    ensures (forall w :: Lowest(p, w) ==> Cheapest(p, w)) ==> Cheapest(p, route)
    ensures Cheapest(p, route) ==> exists w :: Lowest(p, w) && Cheapest(p, w)
    ensures LowestCostTheSame(p) ==> (Cheapest(p, route) <==> exists w :: Lowest(p, w) && Cheapest(p, w))
  {
    hide IsRun, Pops, NoHigher, NoDearer, Cheapest, LowestCostTheSame;
    route := RunFinds(p, cs, x, k);
    LowestDecides(p, route);
  }

  // ---------------------------------------------------------------- the queue as a bag

  /** The pairs of node and priority in a queue. */
  ghost function Bag(q: seq<Item<Node>>): multiset<(Node, real)>
  {
    if q == [] then multiset{} else Bag(q[..|q| - 1]) + multiset{(q[|q| - 1].value, q[|q| - 1].priority)}
  }

  lemma BagAdds(q: seq<Item<Node>>, item: Item<Node>)
    ensures Bag(q + [item]) == Bag(q) + multiset{(item.value, item.priority)}
  {
    assert (q + [item])[..|q|] == q;
  }

  lemma EndsInLast<T>(q: seq<T>, r: seq<T>)
    requires r != []
    ensures q + r == q + r[..|r| - 1] + [r[|r| - 1]]
  {
  }

  lemma WithoutOne<T>(q: seq<T>, i: nat)
    requires i < |q|
    ensures q == q[..i] + [q[i]] + q[i + 1..] && multiset(q[..i] + q[i + 1..]) == multiset(q) - multiset{q[i]}
  {
    assert q == q[..i] + [q[i]] + q[i + 1..];
  }

  lemma {:induction false} BagSplits(q: seq<Item<Node>>, item: Item<Node>, r: seq<Item<Node>>)
    ensures Bag(q + [item] + r) == Bag(q + r) + multiset{(item.value, item.priority)}
    decreases |r|
  {
    if r == [] {
      BagAdds(q, item);
      assert q + [item] + r == q + [item] && q + r == q;
    } else {
      hide Bag;
      var s, last := r[..|r| - 1], r[|r| - 1];
      BagSplits(q, item, s);
      BagAdds(q + [item] + s, last);
      BagAdds(q + s, last);
      EndsInLast(q + [item], r);
      EndsInLast(q, r);
    }
  }

  lemma WithoutLast<T>(q: seq<T>)
    requires q != []
    ensures q == q[..|q| - 1] + [q[|q| - 1]] && multiset(q[..|q| - 1]) == multiset(q) - multiset{q[|q| - 1]}
  {
    assert q == q[..|q| - 1] + [q[|q| - 1]];
  }

  lemma Occurs<T>(q: seq<T>, x: T) returns (i: nat)
    requires x in multiset(q)
    ensures i < |q| && q[i] == x
  {
    i :| i < |q| && q[i] == x;
  }

  /** The order of the items in the queue does not matter. */
  lemma {:induction false} SameBag(q: seq<Item<Node>>, r: seq<Item<Node>>)
    requires multiset(q) == multiset(r)
    ensures Bag(q) == Bag(r)
    decreases |q|
  {
    if q == [] {
      assert |multiset(r)| == |r|;
    } else {
      hide Bag;
      var rest, last := q[..|q| - 1], q[|q| - 1];
      assert last in multiset(q);
      var i := Occurs(r, last);
      WithoutLast(q);
      WithoutOne(r, i);
      SameBag(rest, r[..i] + r[i + 1..]);
      BagAdds(rest, last);
      BagSplits(r[..i], last, r[i + 1..]);
    }
  }

  lemma {:induction false} BagMembers(q: seq<Item<Node>>, n: Node, x: real)
    requires (n, x) in Bag(q)
    ensures exists it :: it in q && it.value == n && it.priority == x
  {
    var last := q[|q| - 1];
    if (n, x) in Bag(q[..|q| - 1]) {
      BagMembers(q[..|q| - 1], n, x);
      var it :| it in q[..|q| - 1] && it.value == n && it.priority == x;
      assert it in q;
    } else {
      assert last in q;
    }
  }

  /** Taking a least item from the queue is what Pops describes. */
  lemma PopIsPops(c: Snapshot, q: seq<Item<Node>>, item: Item<Node>, q': seq<Item<Node>>)
    requires c.waiting == Bag(q) && item in q && multiset(q') + multiset{item} == multiset(q)
    requires forall it :: it in q ==> item.priority <= it.priority
    ensures Pops(c, item.value, item.priority)
    ensures Bag(q') == c.waiting - multiset{(item.value, item.priority)}
  {
    SameBag(q' + [item], q);
    BagAdds(q', item);
    forall m, y | (m, y) in c.waiting ensures item.priority <= y {
      BagMembers(q, m, y);
    }
  }

  lemma {:induction false} BagSize(q: seq<Item<Node>>)
    ensures |Bag(q)| == |q|
  {
    if q != [] {
      BagSize(q[..|q| - 1]);
    }
  }

  /** What an improvement does to labels, predecessors and queue. */
  lemma RelaxTakes(p: Problem, now: Snapshot, u: Node, e: Edge, q: seq<Item<Node>>, item: Item<Node>,
                   q': seq<Item<Node>>)
    requires u in now.score && now.waiting == Bag(q) && multiset(q') == multiset(q) + multiset{item}
    requires e.node in now.score ==> now.score[u] + Weight(e, p.useUtility) < now.score[e.node]
    requires item.value == e.node
    requires item.priority == now.score[u] + Weight(e, p.useUtility) + p.h(e.node, p.goal, p.profiles)
    ensures RelaxEdge(p, now, u, e) == Snapshot(now.score[e.node := now.score[u] + Weight(e, p.useUtility)],
                                              now.data[e.node := Via(u, e.action)], Bag(q'))
  {
    hide Bag;
    assert multiset(q + [item]) == multiset(q) + multiset{item};
    SameBag(q', q + [item]);
    BagAdds(q, item);
  }

  lemma BeginRun(p: Problem, q: seq<Item<Node>>, first: Item<Node>)
    requires multiset(q) == multiset{first} && first.value == p.start && first.priority == 0.0
    ensures IsRun(p, [Snapshot(map[p.start := 0.0], map[p.start := Done], Bag(q))])
  {
    SameBag(q, [first]);
    BagAdds([], first);
    assert [] + [first] == [first];
  }

  lemma RunGoesOn(p: Problem, run: seq<Snapshot>, n: Node, x: real, c: Snapshot)
    requires run != [] && IsRun(p, run)
    requires Pops(run[|run| - 1], n, x) && n != p.goal && n in run[|run| - 1].score
    requires c == RelaxEdges(p, run[|run| - 1].(waiting := run[|run| - 1].waiting - multiset{(n, x)}), n, |Out(p.g, n)|)
    ensures IsRun(p, run + [c]) && Next(p, run[|run| - 1], c)
  {
    hide Pops, RelaxEdges;
    assert Expands(p, run[|run| - 1], n, x, c);
    var longer := run + [c];
    forall i | 0 <= i < |longer| - 1 ensures Next(p, longer[i], longer[i + 1]) {
      if i < |run| - 1 {
        assert Next(p, run[i], run[i + 1]);
      }
    }
  }

  // ---------------------------------------------------------------- the search

  lemma WeightIs(e: Edge, useUtility: bool)
    ensures Weight(e, useUtility) == if useUtility then e.utility else 1.0
  {
  }

  /** The inner loop of the search: relaxes every edge out of `current`. */
  method Expand(p: Problem, open: PriorityQueue<Node>, current: Node, scores: map<Node, real>, entries: Data)
    returns (gScore: map<Node, real>, data: Data)
    requires open.Valid() && current in scores
    modifies open, open.queue
    ensures open.Valid() && forall i :: 0 <= i < |open.queue| ==>
      open.queue[i] in old(open.queue) || fresh(open.queue[i])
    ensures Snapshot(gScore, data, Bag(open.queue))
            == RelaxEdges(p, Snapshot(scores, entries, Bag(old(open.queue))), current, |Out(p.g, current)|)
  {
    hide HeapOrder, Bag, RelaxEdges, Weight;
    ghost var c := Snapshot(scores, entries, Bag(open.queue));
    NothingRelaxed(p, c, current);
    gScore, data := scores, entries;
    var edges := Out(p.g, current);
    var i := 0;
    while i < |edges|
      invariant 0 <= i <= |edges| && open.Valid() && current in gScore
      invariant forall i :: 0 <= i < |open.queue| ==> open.queue[i] in old(open.queue) || fresh(open.queue[i])
      invariant Snapshot(gScore, data, Bag(open.queue)) == RelaxEdges(p, c, current, i)
    {
      ghost var now := Snapshot(gScore, data, Bag(open.queue));
      RelaxOneMore(p, c, current, i, now);
      var edge := edges[i];
      var newGScore := gScore[current] + (if p.useUtility then edge.utility else 1.0);
      WeightIs(edge, p.useUtility);
      if edge.node !in gScore || newGScore < gScore[edge.node] {
        ghost var waiting := open.queue;
        gScore := gScore[edge.node := newGScore];
        var priority := newGScore + p.h(edge.node, p.goal, p.profiles);
        var successor := new Item(edge.node, priority);
        Heap.Push(open, successor);
        data := data[edge.node := Via(current, edge.action)];
        RelaxTakes(p, now, current, edge, waiting, successor, open.queue);
      }
      i := i + 1;
    }
  }

  /** The run has ended: with nothing left to expand, or with the goal taken, path being its chain of predecessors. */
  ghost predicate EndsWith(p: Problem, run: seq<Snapshot>, path: seq<Node>)
  {
    && IsRun(p, run)
    && if path == [] then run[|run| - 1].waiting == multiset{} else TakesGoal(p, run[|run| - 1], path)
  }

  /**
   * What a search returns: an empty path exactly if the goal cannot be reached; otherwise the nodes and actions of a
   * simple way to it, which costs no more than any way is high. It does so along a run of the step relation.
   */
  ghost predicate Solved(p: Problem, path: seq<Node>, actions: seq<Action>)
  {
    && (exists run :: EndsWith(p, run, path))
    && (path != [] <==> Reachable(p.g, p.start, p.goal))
    && if path == [] then actions == [] else exists route :: IsAnswer(p, path, actions, route)
  }

  lemma FoundIsSolved(p: Problem, run: seq<Snapshot>, x: real, k: nat)
    requires NonNegative(p.g, p.useUtility) && run != [] && IsRun(p, run) && Pops(run[|run| - 1], p.goal, x)
    requires Rooted(run[|run| - 1].data, p.goal, k)
    ensures Solved(p, ChainNodes(run[|run| - 1].data, p.goal, k), ChainActions(run[|run| - 1].data, p.goal, k))
  {
    hide IsRun, Pops, NoHigher, NoDearer, Simple;
    var path := ChainNodes(run[|run| - 1].data, p.goal, k);
    var route := RunFinds(p, run, x, k);
    assert IsChain(run[|run| - 1].data, p.goal, k, path);
    assert EndsWith(p, run, path);
  }

  lemma NothingIsSolved(p: Problem, run: seq<Snapshot>)
    requires NonNegative(p.g, p.useUtility) && run != [] && IsRun(p, run) && run[|run| - 1].waiting == multiset{}
    ensures Solved(p, [], [])
  {
    hide IsRun;
    NothingIsLeft(p, run);
    assert EndsWith(p, run, []);
  }

  lemma RunLabels(p: Problem, run: seq<Snapshot>, n: Node, x: real)
    requires NonNegative(p.g, p.useUtility) && run != [] && IsRun(p, run) && Pops(run[|run| - 1], n, x)
    ensures n in run[|run| - 1].score && IsRooted(run[|run| - 1].data, n)
  {
    hide Holds, Pops, IsRun;
    var l, closed := RunKeeps(p, run);
    HoldsLabels(p, run[|run| - 1], l, closed, n, x);
  }

  /**
   * Finds a way from start to goal, or returns an empty path if there is none. The way found costs no more than any
   * other way is high, so no more than any way along which the heuristic never overestimates.
   */
  method Solve(sg: StateGraph, start: Node, goal: Node, h: Heuristic, useUtility: bool, profiles: Profiles)
    returns (path: seq<Node>, actions: seq<Action>)
    requires NonNegative(sg.successors, useUtility)
    ensures Solved(Problem(sg.successors, start, goal, h, useUtility, profiles), path, actions)
  {
    hide Room, HeapOrder, Solved, Next, Expands, Initial, Shrinks, IsRun, Pops, RelaxEdges, Bag, NonNegative, Rooted,
         IsRooted, ChainNodes, ChainActions, PriorityQueue.Valid;
    var p := Problem(sg.successors, start, goal, h, useUtility, profiles);
    var open := new PriorityQueue<Node>();
    var first := new Item(start, 0.0);
    Heap.Push(open, first);
    var gScore := map[start := 0.0];
    var data := map[start := Done];
    ghost var run := [Snapshot(gScore, data, Bag(open.queue))];
    BeginRun(p, open.queue, first);
    while open.Len() > 0
      invariant fresh(open) && fresh(open.queue) && open.Valid()
      invariant run != [] && IsRun(p, run) && run[|run| - 1] == Snapshot(gScore, data, Bag(open.queue))
      decreases Room(p, gScore), |open.queue|
    {
      ghost var q := open.queue;
      var item := Heap.Pop(open);
      var current := item.value;
      PopIsPops(run[|run| - 1], q, item, open.queue);
      RunLabels(p, run, current, item.priority);
      if current == goal {
        ghost var k := RootDepth(data, current);
        path, actions := ResolvePath(data, current, k);
        FoundIsSolved(p, run, item.priority, k);
        return;
      }
      gScore, data := Expand(p, open, current, gScore, data);
      ghost var c := Snapshot(gScore, data, Bag(open.queue));
      RunGoesOn(p, run, current, item.priority, c);
      StepShrinks(p, run, c);
      ShrinksMeans(p, run[|run| - 1], c);
      BagSize(q);
      BagSize(open.queue);
      run := run + [c];
    }
    BagSize(open.queue);
    NothingIsSolved(p, run);
    return [], [];
  }
}
