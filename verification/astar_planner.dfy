/** The planner of pkg/planner/astar/astar_planner.go: shortcuts, opportunistic links and plans. */
module Planner {
  import opened Types
  import opened StateGraphs
  import opened AStar
  import opened StateGraphBuilder
  import opened PriorityQueues
  import Heap

  const OPPORTUNISTIC_ACTION_NAME := "opportunistic"
  const OPPORTUNISTIC := Action(OPPORTUNISTIC_ACTION_NAME, NoProperties)

  function HEmpty(): Heuristic
  {
    (one, other, profiles) => 0.0
  }

  /** The heuristic that drives planning: the distance between the states. */
  function H(sqrt: real -> real): Heuristic
    requires IsRoot(sqrt)
  {
    (one: Node, other: Node, profiles: Profiles) => Distance(sqrt, one.value, other.value, profiles)
  }

  /** No actuator asks for a negative price, in any state it may be asked about. */
  ghost predicate PricesNonNegative(t: Task)
  {
    forall round: nat, s, e :: Proposed(t, round, s, e) ==> e.utility >= 0.0
  }

  predicate Reserved(a: Action)
  {
    a.name == EMPTY_ACTION_NAME || a.name == OPPORTUNISTIC_ACTION_NAME
  }

  /** No actuator uses the planner's own action names, in any state it may be asked about. */
  ghost predicate NamesFree(t: Task)
  {
    forall round: nat, s, e :: Proposed(t, round, s, e) ==> !Reserved(e.action)
  }

  // ---------------------------------------------------------------- the do-nothing shortcut

  function Intermediate(s: State): State
  {
    var copy := DeepCopy(s);
    copy.(intent := copy.intent.(targetKey := "intermediate"))
  }

  /** The state already runs with fewer pods than start, or with resources nowhere above those of start. */
  predicate Lighter(t: Task, s: State)
  {
    |t.start.currentPods| > |s.currentPods| || LessResources(s, t.start)
  }

  datatype Shortcut = NoShortcut | Shortcut(node: Node, price: real, route: Walk)

  /**
   * The price is one less than the edges of a shortest way to the goal, raised if that way ends lighter. The last edge
   * is the link from a goal-meeting state, so this counts the actuator actions (PriceIsDepth), unless the goal state
   * itself was proposed: then the last edge is an action too, and is not counted.
   */
  ghost predicate Priced(t: Task, g: Growth, sc: Shortcut)
  {
    sc.Shortcut? ==>
      && Shortest(t, g.succ, sc.route) && sc.route.Then?
      && sc.price == (Length(sc.route) - 1) as real
                     * (if Lighter(t, End(StartNode(t), sc.route.before).value) then 1.01 else 1.0)
  }

  function DetourEdge(sc: Shortcut): Edge
    requires sc.Shortcut?
  {
    Edge(sc.node, sc.price, DONE)
  }

  /** The final graph: the breadth-first graph, with start -> intermediate -> goal if there is a shortcut. */
  ghost predicate Finished(t: Task, g: Growth, sc: Shortcut, nodes: seq<Node>, succ: Successors)
  {
    && Grown(t, g) && Priced(t, g, sc)
    && (sc.Shortcut? <==> IsBetter(t.start, t.goal, t.profiles) && Reachable(g.succ, StartNode(t), EndNode(t)))
    && match sc
       case NoShortcut => nodes == g.nodes && succ == g.succ
       case Shortcut(node, _, _) =>
         && node == Node(|g.nodes|, Intermediate(t.start)) && nodes == g.nodes + [node]
         && succ == WithEdge(WithEdge(g.succ, StartNode(t), DetourEdge(sc)), node, GoalLink(t))
  }

  /** What the graph holds when it is handed to the search: everything heard for all states that were expanded. */
  ghost predicate Generated(t: Task, g: Growth, sc: Shortcut, nodes: seq<Node>, succ: Successors)
  {
    && Finished(t, g, sc, nodes, succ) && Heard(t, g, g.expanded)
    && (g.expanded + 1 == |g.nodes| || |g.nodes| >= t.cfg.maxStates)
  }

  /** The detour of a start that meets the goal: over a copy of start under another target, straight to the goal. */
  lemma ShortcutIs(t: Task, g: Growth, sc: Shortcut, nodes: seq<Node>, succ: Successors)
    requires Finished(t, g, sc, nodes, succ) && sc.Shortcut?
    ensures sc.node.address == |g.nodes| && sc.node.value.intent.targetKey == "intermediate"
    ensures sc.node.value.(intent := sc.node.value.intent.(targetKey := t.start.intent.targetKey)) == DeepCopy(t.start)
    ensures Edge(sc.node, sc.price, Action("done", NoProperties)) in Out(succ, Node(0, t.start))
    ensures Edge(Node(1, t.goal), 0.0, Action("done", NoProperties)) in Out(succ, sc.node)
    ensures IsRoute(g.succ, Node(0, t.start), sc.route, Node(1, t.goal)) && sc.route.Then?
    ensures forall w :: IsRoute(g.succ, Node(0, t.start), w, Node(1, t.goal)) ==> Length(sc.route) <= Length(w)
    ensures var last := End(Node(0, t.start), sc.route.before).value;
            sc.price == (Length(sc.route) - 1) as real *
                        (if |t.start.currentPods| > |last.currentPods| || LessResources(last, t.start) then 1.01
                         else 1.0)
  {
    hide IsBetter, Grown, LessResources, DeepCopy, Reachable;
    WithEdgeExtends(g.succ, StartNode(t), DetourEdge(sc));
    WithEdgeExtends(WithEdge(g.succ, StartNode(t), DetourEdge(sc)), sc.node, GoalLink(t));
    CopyKeepsTarget(t.start);
  }

  /** There is a detour exactly if start meets the goal already and the goal can be reached; else nothing is added. */
  lemma ShortcutIff(t: Task, g: Growth, sc: Shortcut, nodes: seq<Node>, succ: Successors)
    requires Finished(t, g, sc, nodes, succ)
    ensures sc.Shortcut? <==>
              && IsBetter(t.start, t.goal, t.profiles)
              && exists w :: IsRoute(g.succ, Node(0, t.start), w, Node(1, t.goal))
    ensures !sc.Shortcut? ==> nodes == g.nodes && succ == g.succ
  {
    hide IsBetter, Grown, Priced;
  }

  lemma CopyKeepsTarget(s: State)
    ensures DeepCopy(s).intent.targetKey == s.intent.targetKey
  {
  }

  /** Without a proposed goal the price is the least discovery depth of a goal-meeting state, or 1.01 times that. */
  lemma PriceIsDepth(t: Task, g: Growth, sc: Shortcut) returns (nearest: Node)
    requires Grown(t, g) && Priced(t, g, sc) && sc.Shortcut? && !GoalOffered(t, g)
    ensures nearest in g.nodes && MeetsGoal(t, nearest) && nearest.address < |g.depth|
    ensures sc.price == g.depth[nearest.address] as real *
                        (if |t.start.currentPods| > |nearest.value.currentPods| || LessResources(nearest.value, t.start)
                         then 1.01 else 1.0)
    ensures forall n :: n in g.nodes && MeetsGoal(t, n) ==>
              n.address < |g.depth| && g.depth[nearest.address] <= g.depth[n.address]
  {
    hide IsBetter, Grown, GoalOffered, Shortest, LessResources;
    ShortestEndsAtNearest(t, g, sc.route);
    nearest := End(StartNode(t), sc.route.before);
  }

  lemma {:induction false} EmptyIsHonest(p: Problem, v: Walk, total: real)
    requires p.h == HEmpty() && NonNegative(p.g, p.useUtility) && IsWalk(p.g, p.start, v)
      && Cost(v, p.useUtility) <= total
    ensures Honest(p, v, total)
  {
    if v.Then? {
      WeightNonNegative(p.g, End(p.start, v.before), v.edge, p.useUtility);
      EmptyIsHonest(p, v.before, total);
    }
  }

  /** Without a heuristic and without utilities, the search finds a shortest way. */
  lemma CountedIsShortest(t: Task, succ: Successors, route: Walk)
    requires IsRoute(succ, StartNode(t), route, EndNode(t))
    requires NonNegative(succ, false)
    requires NoDearer(Problem(succ, StartNode(t), EndNode(t), HEmpty(), false, t.profiles), route)
    ensures Shortest(t, succ, route)
  {
    var p := Problem(succ, StartNode(t), EndNode(t), HEmpty(), false, t.profiles);
    forall w | IsRoute(succ, StartNode(t), w, EndNode(t)) ensures Length(route) <= Length(w) {
      if w.Then? {
        CostIsLength(w);
        CostIsLength(w.before);
        EmptyIsHonest(p, w.before, Cost(w, false));
      }
      HonestIsCheapest(p, route, w);
      CostIsLength(route);
      CostIsLength(w);
    }
  }

  lemma BeforeLast(s: Node, w: Walk)
    requires w.Then?
    ensures |Nodes(s, w)| >= 2 && Nodes(s, w)[|Nodes(s, w)| - 2] == End(s, w.before)
  {
  }

  /** What the search for a shortest way returns. */
  lemma FoundIsShortest(t: Task, succ: Successors, path: seq<Node>, actions: seq<Action>) returns (route: Walk)
    requires Solved(Problem(succ, StartNode(t), EndNode(t), HEmpty(), false, t.profiles), path, actions)
    ensures path != [] <==> Reachable(succ, StartNode(t), EndNode(t))
    ensures path != [] ==>
              && Shortest(t, succ, route) && route.Then? && |path| == Length(route) + 1 >= 2
              && path[|path| - 2] == End(StartNode(t), route.before)
  {
    hide NoDearer, NoHigher, Shortest, Reachable;
    route := Stay;
    if path != [] {
      route :| IsAnswer(Problem(succ, StartNode(t), EndNode(t), HEmpty(), false, t.profiles), path, actions, route);
      CountedIsShortest(t, succ, route);
      BeforeLast(StartNode(t), route);
    }
  }

  lemma ReachableNeedsEdges(succ: Successors, s: Node, t: Node)
    requires Reachable(succ, s, t) && s != t
    ensures succ != map[]
  {
    var w :| IsRoute(succ, s, w, t);
    assert w.edge in Out(succ, End(s, w.before));
  }

  method GenerateStateGraph(t: Task)
    returns (sg: StateGraph, startNode: Node, endNode: Node, hasGoal: bool, ghost g: Growth, ghost sc: Shortcut)
    requires AllWellFormed(t)
    ensures fresh(sg) && startNode == StartNode(t) && endNode == EndNode(t)
    ensures Generated(t, g, sc, sg.nodes, sg.successors)
    ensures hasGoal <==> GoalWasMet(t, g.nodes) || sc.Shortcut?
    ensures g.expanded == 0 || g.expanded <= t.cfg.maxStates - 2
    ensures forall a: nat :: AtMost(t, a) ==> |sg.nodes| <= SizeBound(t.cfg, a) + 1
  {
    hide Grown, Heard, GoalWasMet, AllWellFormed, AtMost, IsBetter, LessResources, Shortest, Reachable, Solved;
    startNode, endNode := StartNode(t), EndNode(t);
    sg, hasGoal, g := BreadthFirst(t);
    sc := NoShortcut;
    if IsBetter(t.start, t.goal, t.profiles) {
      if Reachable(g.succ, startNode, endNode) {
        ReachableNeedsEdges(g.succ, startNode, endNode);
      }
    }
    if IsBetter(t.start, t.goal, t.profiles) && |sg.successors| > 0 {
      var shortestPath, actions := Solve(sg, startNode, endNode, HEmpty(), false, t.profiles);
      ghost var route := FoundIsShortest(t, g.succ, shortestPath, actions);
      if shortestPath != [] {
        var tmp := (|shortestPath| - 2) as real;
        var lastItem := shortestPath[|shortestPath| - 2];
        if |t.start.currentPods| > |lastItem.value.currentPods| || LessResources(lastItem.value, t.start) {
          tmp := tmp * 1.01;
        }
        var intermediate := DeepCopy(t.start);
        intermediate := intermediate.(intent := intermediate.intent.(targetKey := "intermediate"));
        var intermediateNode := Node(|sg.nodes|, intermediate);
        sg.AddNode(intermediateNode);
        sg.AddEdge(startNode, intermediateNode, tmp, DONE);
        sg.AddEdge(intermediateNode, endNode, 0.0, DONE);
        hasGoal := true;
        sc := Shortcut(intermediateNode, tmp, route);
      }
    }
  }

  /**
   * Planning reaches the goal whenever it claims to; and it claims to unless the only way in is a state equal to the
   * goal.
   */
  lemma HasGoalIffReachable(t: Task, g: Growth, sc: Shortcut, nodes: seq<Node>, succ: Successors)
    requires Finished(t, g, sc, nodes, succ)
    ensures Reachable(succ, StartNode(t), EndNode(t)) <==> GoalWasMet(t, g.nodes) || sc.Shortcut? || GoalOffered(t, g)
    ensures Reachable(succ, StartNode(t), EndNode(t)) <==> Reachable(g.succ, StartNode(t), EndNode(t))
  {
    hide IsBetter, Grown, GoalWasMet, GoalOffered, Priced;
    var s := StartNode(t);
    ReachableIffMet(t, g);
    if Reachable(g.succ, s, EndNode(t)) {
      var w :| IsRoute(g.succ, s, w, EndNode(t));
      if sc.Shortcut? {
        var middle := WithEdge(g.succ, s, DetourEdge(sc));
        WithEdgeExtends(g.succ, s, DetourEdge(sc));
        WithEdgeExtends(middle, sc.node, GoalLink(t));
        WalkExtends(g.succ, middle, s, w);
        WalkExtends(middle, succ, s, w);
      }
      assert IsRoute(succ, s, w, EndNode(t));
    }
  }

  /** So if no actuator proposes the goal state itself, hasGoal says exactly whether the goal can be reached. */
  lemma HasGoalIsExact(t: Task, g: Growth, sc: Shortcut, nodes: seq<Node>, succ: Successors)
    requires Finished(t, g, sc, nodes, succ)
    requires forall round: nat, s, e :: Proposed(t, round, s, e) ==> e.node.value != t.goal
    ensures Reachable(succ, StartNode(t), EndNode(t)) <==> GoalWasMet(t, g.nodes) || sc.Shortcut?
  {
    hide Grown, Priced, GoalWasMet, GoalOffered, Reachable, IsBetter, Proposed;
    NeverOffered(t, g);
    HasGoalIffReachable(t, g, sc, nodes, succ);
  }

  lemma {:induction false} WalkExtends(succ: Successors, succ': Successors, s: Node, w: Walk)
    requires Extends(succ, succ') && IsWalk(succ, s, w)
    ensures IsWalk(succ', s, w)
  {
    if w.Then? {
      WalkExtends(succ, succ', s, w.before);
    }
  }

  // ---------------------------------------------------------------- what the edges of a planning graph mean

  function OpportunisticLink(t: Task): Edge
  {
    Edge(EndNode(t), 0.0, OPPORTUNISTIC)
  }

  /** The edge to the intermediate node, from where only the goal can be reached. */
  ghost predicate IsDetour(t: Task, succ: Successors, src: Node, e: Edge)
  {
    && src == StartNode(t) && e.action == DONE && e.utility >= 0.0
    && MeetsGoal(t, e.node) && IsBetter(t.start, t.goal, t.profiles)
    && Out(succ, e.node) == [GoalLink(t)]
  }

  ghost predicate IsOpportunistic(t: Task, linked: seq<Node>, src: Node, e: Edge)
  {
    2 <= src.address && src in linked && e == OpportunisticLink(t)
  }

  /** The edge was proposed in the very round in which the planner asked about its source. */
  ghost predicate IsHeard(t: Task, asked: seq<State>, src: Node, e: Edge)
  {
    IsStep(t, src, e) && Rank(src) < |asked| && asked[Rank(src)] == src.value
  }

  ghost predicate PlanEdge(t: Task, asked: seq<State>, linked: seq<Node>, succ: Successors, src: Node, e: Edge)
  {
    || IsHeard(t, asked, src, e)
    || IsGoalLink(t, src, e)
    || IsDetour(t, succ, src, e)
    || IsOpportunistic(t, linked, src, e)
  }

  ghost predicate PlanGraph(t: Task, asked: seq<State>, linked: seq<Node>, succ: Successors)
  {
    IsTranscript(t, asked) && forall src, e :: e in Out(succ, src) ==> PlanEdge(t, asked, linked, succ, src, e)
  }

  lemma PlanGraphIsNonNegative(t: Task, asked: seq<State>, linked: seq<Node>, succ: Successors)
    requires PlanGraph(t, asked, linked, succ) && PricesNonNegative(t)
    ensures NonNegative(succ, true)
  {
    hide IsBetter, Proposed;
    forall n, e | n in succ && e in succ[n] ensures Weight(e, true) >= 0.0 {
      assert e in Out(succ, n);
    }
  }

  lemma IntermediateMeets(t: Task, n: Node)
    requires n.value == Intermediate(t.start) && 2 <= n.address && IsBetter(t.start, t.goal, t.profiles)
    ensures MeetsGoal(t, n)
  {
    assert forall k :: k in t.start.intent.objectives ==> Meets(t.start, t.goal, t.profiles, k);
    assert forall k :: k in t.start.intent.objectives ==> Objective(n.value, k) == Objective(t.start, k);
  }

  lemma FinishedIsPlanGraph(t: Task, g: Growth, sc: Shortcut, nodes: seq<Node>, succ: Successors)
    requires Finished(t, g, sc, nodes, succ)
    ensures g.expanded < |g.nodes| && PlanGraph(t, Transcript(g), [], succ)
    ensures forall src, e :: e in Out(g.succ, src) ==> Known(g.nodes, src) && Known(g.nodes, e.node)
  {
    hide IsBetter, Proposed, Priced, NoTwins, AllHaveParents, Layered, AllLinked, Reachable, Intermediate, IsTranscript;
    TranscriptHolds(t, g);
    forall src, e | e in Out(g.succ, src)
      ensures Known(g.nodes, src) && Known(g.nodes, e.node)
      ensures IsHeard(t, Transcript(g), src, e) || IsGoalLink(t, src, e)
    {
      assert EdgeOk(t, g, src, e);
    }
    if sc.Shortcut? {
      IntermediateMeets(t, sc.node);
      var middle := WithEdge(g.succ, StartNode(t), DetourEdge(sc));
      WithEdgeExtends(g.succ, StartNode(t), DetourEdge(sc));
      WithEdgeExtends(middle, sc.node, GoalLink(t));
      assert Out(g.succ, sc.node) == [] by {
        if Out(g.succ, sc.node) != [] {
          SomeElement(Out(g.succ, sc.node));
        }
      }
      PriceIsNonNegative(t, g, sc);
    }
  }

  lemma SomeElement<T>(s: seq<T>)
    requires s != []
    ensures exists x :: x in s
  {
    assert s[0] in s;
  }

  lemma PriceIsNonNegative(t: Task, g: Growth, sc: Shortcut)
    requires sc.Shortcut? && Priced(t, g, sc)
    ensures sc.price >= 0.0
  {
  }

  // ---------------------------------------------------------------- what a plan means

  /** The actions of a path that are left once the planner's own ones are dropped. */
  function Kept(actions: seq<Action>): seq<Action>
  {
    if actions == [] then [] else
      var last := actions[|actions| - 1];
      Kept(actions[..|actions| - 1]) + if Reserved(last) then [] else [last]
  }

  lemma KeptAdds(actions: seq<Action>, a: Action)
    ensures Kept(actions + [a]) == if Reserved(a) then Kept(actions) else Kept(actions) + [a]
  {
    assert (actions + [a])[..|actions|] == actions;
  }

  /** When the planner asked about s, some actuator proposed to get to s' by action a. */
  ghost predicate Leads(t: Task, asked: seq<State>, s: State, a: Action, s': State)
  {
    exists round: nat, e ::
      round < |asked| && asked[round] == s && Proposed(t, round, s, e) && e.action == a && e.node.value == s'
  }

  /** Carrying out the plan from start goes through these states, each step as proposed when the planner asked. */
  ghost predicate Replays(t: Task, asked: seq<State>, plan: seq<Action>, states: seq<State>)
  {
    && IsTranscript(t, asked) && |states| == |plan| + 1 && states[0] == t.start
    && forall i :: 0 <= i < |plan| ==> Leads(t, asked, states[i], plan[i], states[i + 1])
  }

  lemma ReplaysOneMore(t: Task, asked: seq<State>, plan: seq<Action>, states: seq<State>, e: Edge)
    requires |states| == |plan| + 1 && Replays(t, asked, plan, states)
    requires exists round: nat ::
        round < |asked| && asked[round] == states[|plan|] && Proposed(t, round, asked[round], e)
    ensures Replays(t, asked, plan + [e.action], states + [e.node.value])
  {
    hide Proposed;
    var plan', states' := plan + [e.action], states + [e.node.value];
    forall i | 0 <= i < |plan'| ensures Leads(t, asked, states'[i], plan'[i], states'[i + 1]) {
      if i < |plan| {
        assert Leads(t, asked, states[i], plan[i], states[i + 1]);
      }
    }
  }

  ghost predicate EndsInDetour(t: Task, succ: Successors, w: Walk)
  {
    w.Then? && w.edge.action == DONE && w.edge.node.address != 1
  }

  lemma DetourIsDetour(t: Task, asked: seq<State>, linked: seq<Node>, succ: Successors, w: Walk)
    requires PlanGraph(t, asked, linked, succ) && NamesFree(t)
    requires IsWalk(succ, StartNode(t), w) && EndsInDetour(t, succ, w)
    ensures IsDetour(t, succ, End(StartNode(t), w.before), w.edge) && !EndsInDetour(t, succ, w.before)
  {
    hide IsBetter, Proposed;
    assert PlanEdge(t, asked, linked, succ, End(StartNode(t), w.before), w.edge);
    if EndsInDetour(t, succ, w.before) {
      assert PlanEdge(t, asked, linked, succ, End(StartNode(t), w.before.before), w.before.edge);
    }
  }

  /** A walk that has not arrived anywhere near the goal consists of actuator steps only, and replays as it is. */
  lemma {:induction false} StepsReplay(t: Task, asked: seq<State>, linked: seq<Node>, succ: Successors, w: Walk)
    returns (states: seq<State>)
    requires PlanGraph(t, asked, linked, succ) && NamesFree(t) && IsWalk(succ, StartNode(t), w)
    requires End(StartNode(t), w).address != 1 && !EndsInDetour(t, succ, w)
    ensures Kept(Actions(w)) == Actions(w) && Replays(t, asked, Actions(w), states)
    ensures |states| == Length(w) + 1 && states[Length(w)] == End(StartNode(t), w).value
  {
    hide IsBetter, Proposed;
    if w.Stay? {
      states := [t.start];
    } else {
      var src := End(StartNode(t), w.before);
      assert PlanEdge(t, asked, linked, succ, src, w.edge);
      if EndsInDetour(t, succ, w.before) {
        DetourIsDetour(t, asked, linked, succ, w.before);
      }
      var before := StepsReplay(t, asked, linked, succ, w.before);
      states := before + [w.edge.node.value];
      ReplaysOneMore(t, asked, Actions(w.before), before, w.edge);
      KeptAdds(Actions(w.before), w.edge.action);
    }
  }

  /**
   * Where a plan along w may end: in a state that meets the goal, in a proposed state that equals it, or, for want of
   * better, in the state of a node linked opportunistically.
   */
  ghost predicate Arrives(t: Task, linked: seq<Node>, w: Walk, s: State)
  {
    && w.Then?
    && var src := End(StartNode(t), w.before);
    || (w.edge == GoalLink(t) && IsBetter(s, t.goal, t.profiles))
    || (IsStep(t, src, w.edge) && s == t.goal)
    || (w.edge == OpportunisticLink(t) && src in linked && s == src.value)
  }

  /** What is left of any way to the goal replays step by step from start, and ends where it should. */
  lemma RouteIsPlan(t: Task, asked: seq<State>, linked: seq<Node>, succ: Successors, w: Walk)
    returns (states: seq<State>)
    requires PlanGraph(t, asked, linked, succ) && NamesFree(t) && IsRoute(succ, StartNode(t), w, EndNode(t))
    ensures Replays(t, asked, Kept(Actions(w)), states) && Arrives(t, linked, w, states[|states| - 1])
    ensures Kept(Actions(w)) == [] ==> IsBetter(t.start, t.goal, t.profiles)
  {
    hide IsBetter, Proposed, Kept, Replays, Leads;
    var s := StartNode(t);
    var src := End(s, w.before);
    assert PlanEdge(t, asked, linked, succ, src, w.edge);
    KeptAdds(Actions(w.before), w.edge.action);
    if EndsInDetour(t, succ, w.before) {
      var v := w.before;
      DetourIsDetour(t, asked, linked, succ, v);
      KeptAdds(Actions(v.before), v.edge.action);
      states := StepsReplay(t, asked, linked, succ, v.before);
    } else {
      states := StepsReplay(t, asked, linked, succ, w.before);
      if IsStep(t, src, w.edge) {
        ReplaysOneMore(t, asked, Actions(w.before), states, w.edge);
        states := states + [w.edge.node.value];
      }
    }
  }

  // ---------------------------------------------------------------- what a plan costs

  /** Every node of v other than the first meets the goal. */
  ghost predicate AllMeet(t: Task, v: Walk)
  {
    v.Then? ==> MeetsGoal(t, v.edge.node) && AllMeet(t, v.before)
  }

  /** All nodes between the ends of w meet the goal. */
  ghost predicate InteriorMeets(t: Task, w: Walk)
  {
    w.Then? ==> AllMeet(t, w.before)
  }

  ghost function PlanProblem(t: Task, sqrt: real -> real, succ: Successors): Problem
    requires IsRoot(sqrt)
  {
    Problem(succ, StartNode(t), EndNode(t), H(sqrt), true, t.profiles)
  }

  /** The distance is not admissible in general, but it is at goal-meeting states: there it is never positive. */
  lemma {:induction false} MeetingIsHonest(t: Task, sqrt: real -> real, succ: Successors, v: Walk, total: real)
    requires IsRoot(sqrt) && NonNegative(succ, true)
    requires IsWalk(succ, StartNode(t), v) && AllMeet(t, v) && Cost(v, true) <= total
    ensures Honest(PlanProblem(t, sqrt, succ), v, total)
  {
    hide IsBetter, Distance, IsRoot;
    if v.Then? {
      DistanceSign(sqrt, v.edge.node.value, t.goal, t.profiles);
      WeightNonNegative(succ, End(StartNode(t), v.before), v.edge, true);
      MeetingIsHonest(t, sqrt, succ, v.before, total);
    }
  }

  /** `route` costs no more than any way to the goal through goal-meeting states only. */
  ghost predicate CheapestThroughMet(t: Task, succ: Successors, route: Walk)
  {
    forall w :: IsRoute(succ, StartNode(t), w, EndNode(t)) && InteriorMeets(t, w) ==> Cost(route, true) <= Cost(w, true)
  }

  lemma SearchIsCheapestThroughMet(t: Task, sqrt: real -> real, succ: Successors, route: Walk)
    requires IsRoot(sqrt) && NonNegative(succ, true) && NoDearer(PlanProblem(t, sqrt, succ), route)
    ensures CheapestThroughMet(t, succ, route)
  {
    hide IsBetter, Distance, IsRoot;
    forall w | IsRoute(succ, StartNode(t), w, EndNode(t)) && InteriorMeets(t, w)
      ensures Cost(route, true) <= Cost(w, true)
    {
      if w.Then? {
        WeightNonNegative(succ, End(StartNode(t), w.before), w.edge, true);
        MeetingIsHonest(t, sqrt, succ, w.before, Cost(w, true));
      }
      HonestIsCheapest(PlanProblem(t, sqrt, succ), route, w);
    }
  }

  /**
   * In particular it costs no more than any single action that leads to a goal-meeting state, the shortcut included.
   */
  lemma NoDearerThanOneAction(t: Task, succ: Successors, route: Walk, e: Edge)
    requires CheapestThroughMet(t, succ, route)
    requires e in Out(succ, StartNode(t)) && MeetsGoal(t, e.node) && GoalLink(t) in Out(succ, e.node)
    ensures Cost(route, true) <= e.utility
  {
    var v := Then(Stay, e);
    var s := StartNode(t);
    assert IsWalk(succ, s, Stay) && End(s, Stay) == s;
    assert IsWalk(succ, s, v);
    assert v.Then? && v.edge == e;
    assert End(s, v) == e.node;
    var w := Then(v, GoalLink(t));
    assert IsRoute(succ, s, w, EndNode(t));
    assert AllMeet(t, Stay);
    assert Cost(v, true) == e.utility;
  }

  lemma NoDearerThanShortcut(t: Task, g: Growth, sc: Shortcut, nodes: seq<Node>, succ: Successors, route: Walk)
    requires Finished(t, g, sc, nodes, succ) && sc.Shortcut? && CheapestThroughMet(t, succ, route)
    ensures Cost(route, true) <= sc.price
  {
    hide IsBetter, Priced, Grown, CheapestThroughMet;
    GrownShape(t, g);
    IntermediateMeets(t, sc.node);
    var middle := WithEdge(g.succ, StartNode(t), DetourEdge(sc));
    WithEdgeExtends(g.succ, StartNode(t), DetourEdge(sc));
    WithEdgeExtends(middle, sc.node, GoalLink(t));
    NoDearerThanOneAction(t, succ, route, DetourEdge(sc));
  }

  // ---------------------------------------------------------------- opportunistic links

  function LinkAll(t: Task, succ: Successors, linked: seq<Node>): Successors
  {
    if linked == [] then succ else
      WithEdge(LinkAll(t, succ, linked[..|linked| - 1]), linked[|linked| - 1], OpportunisticLink(t))
  }

  ghost function Others(nodes: seq<Node>, start: Node, goal: Node): set<Node>
  {
    set n | n in nodes && n != start && n != goal
  }

  function Gap(t: Task, sqrt: real -> real, n: Node): real
    requires IsRoot(sqrt)
  {
    Distance(sqrt, n.value, t.goal, t.profiles)
  }

  /** The linked nodes are distinct, are nodes of the graph, and no other node is closer to the goal. */
  ghost predicate Closest(t: Task, sqrt: real -> real, others: set<Node>, linked: seq<Node>)
    requires IsRoot(sqrt)
  {
    && Distinct(linked) && (forall n :: n in linked ==> n in others)
    && (forall i, j :: 0 <= i < j < |linked| ==> Gap(t, sqrt, linked[i]) <= Gap(t, sqrt, linked[j]))
    && forall n, m :: n in linked && m in others && m !in linked ==> Gap(t, sqrt, n) <= Gap(t, sqrt, m)
  }

  /**
   * Closer means: among states that fall short of the goal by the sum of squared gaps, and likewise among those that
   * meet it without being equal to it, which come before all others.
   */
  lemma CloserBySquares(t: Task, sqrt: real -> real, n: Node, m: Node)
    requires IsRoot(sqrt) && Gap(t, sqrt, n) <= Gap(t, sqrt, m)
    ensures !IsBetter(n.value, t.goal, t.profiles) && !IsBetter(m.value, t.goal, t.profiles) ==>
              SquaresSum(n.value, t.goal) <= SquaresSum(m.value, t.goal)
    ensures IsBetter(m.value, t.goal, t.profiles) && SquaresSum(m.value, t.goal) > 0.0 ==>
              IsBetter(n.value, t.goal, t.profiles) && 0.0 < SquaresSum(n.value, t.goal) <= SquaresSum(m.value, t.goal)
    ensures IsBetter(m.value, t.goal, t.profiles) ==>
              IsBetter(n.value, t.goal, t.profiles) || SquaresSum(n.value, t.goal) == 0.0
    ensures SquaresSum(n.value, t.goal) >= 0.0 && SquaresSum(m.value, t.goal) >= 0.0
  {
    hide IsBetter, SquaresSum;
    var x, y := SquaresSum(n.value, t.goal), SquaresSum(m.value, t.goal);
    SquaresSumFacts(n.value, t.goal);
    SquaresSumFacts(m.value, t.goal);
    DistanceSign(sqrt, n.value, t.goal, t.profiles);
    DistanceSign(sqrt, m.value, t.goal, t.profiles);
    if y < x && (IsBetter(n.value, t.goal, t.profiles) <==> IsBetter(m.value, t.goal, t.profiles)) && y > 0.0 {
      CloserIsSmaller(sqrt, m.value, n.value, t.goal, t.profiles);
    }
    AwayFromGoal(sqrt, n.value, t.goal, t.profiles);
    AwayFromGoal(sqrt, m.value, t.goal, t.profiles);
  }

  lemma AwayFromGoal(sqrt: real -> real, s: State, goal: State, profiles: Profiles)
    requires IsRoot(sqrt)
    ensures SquaresSum(s, goal) == 0.0 <==> Distance(sqrt, s, goal, profiles) == 0.0
  {
    hide IsBetter, SquaresSum;
    SquaresSumFacts(s, goal);
    var sum := SquaresSum(s, goal);
    if sum != 0.0 {
      assert sqrt(0.0) < sqrt(sum);
      NegatedReciprocalGrows(sqrt(sum), sqrt(sum) + 1.0);
    }
  }

  /** Where no state meets the goal, the linked ones are those of least squared gaps. */
  lemma ClosestBySquares(t: Task, sqrt: real -> real, others: set<Node>, linked: seq<Node>)
    requires IsRoot(sqrt) && Closest(t, sqrt, others, linked)
    requires forall n :: n in others ==> !IsBetter(n.value, t.goal, t.profiles)
    ensures forall n, m :: n in linked && m in others && m !in linked ==>
              SquaresSum(n.value, t.goal) <= SquaresSum(m.value, t.goal)
    ensures forall i, j :: 0 <= i < j < |linked| ==>
              SquaresSum(linked[i].value, t.goal) <= SquaresSum(linked[j].value, t.goal)
  {
    hide IsBetter, SquaresSum, Gap, IsRoot;
    forall n, m | n in linked && m in others && m !in linked
      ensures SquaresSum(n.value, t.goal) <= SquaresSum(m.value, t.goal)
    {
      CloserBySquares(t, sqrt, n, m);
    }
    forall i, j | 0 <= i < j < |linked|
      ensures SquaresSum(linked[i].value, t.goal) <= SquaresSum(linked[j].value, t.goal)
    {
      CloserBySquares(t, sqrt, linked[i], linked[j]);
    }
  }

  /** The items carry exactly the given nodes, each once and at its distance from the goal. */
  ghost predicate Carries(t: Task, sqrt: real -> real, q: seq<Item<Node>>, ns: set<Node>)
    requires IsRoot(sqrt)
  {
    && |q| == |ns|
    && (forall it :: it in q ==> it.value in ns && it.priority == Gap(t, sqrt, it.value))
    && (forall n :: n in ns ==> exists it :: it in q && it.value == n)
    && forall it, other :: it in q && other in q && it.value == other.value ==> it == other
  }

  lemma CarriesOneMore(t: Task, sqrt: real -> real, q: seq<Item<Node>>, ns: set<Node>, item: Item<Node>,
                       q': seq<Item<Node>>)
    requires IsRoot(sqrt) && Carries(t, sqrt, q, ns) && item.value !in ns && item.priority == Gap(t, sqrt, item.value)
    requires |q'| == |q| + 1 && forall it :: it in q' <==> it in q || it == item
    ensures Carries(t, sqrt, q', ns + {item.value})
  {
    hide Gap;
    forall n | n in ns + {item.value} ensures exists it :: it in q' && it.value == n {
      if n == item.value {
        assert item in q';
      } else {
        var it :| it in q && it.value == n;
        assert it in q';
      }
    }
  }

  lemma CarriesOneLess(t: Task, sqrt: real -> real, q: seq<Item<Node>>, ns: set<Node>, item: Item<Node>,
                       q': seq<Item<Node>>)
    requires IsRoot(sqrt) && Carries(t, sqrt, q, ns) && item in q && item !in q'
    requires |q'| == |q| - 1 && forall it :: it in q <==> it in q' || it == item
    ensures item.value in ns && Carries(t, sqrt, q', ns - {item.value})
  {
    hide Gap;
    forall n | n in ns - {item.value} ensures exists it :: it in q' && it.value == n {
      var it :| it in q && it.value == n;
      assert it in q';
    }
  }

  /** The links made so far lead from the closest nodes; the nodes not linked yet are in `rest`. */
  ghost predicate Linking(t: Task, sqrt: real -> real, others: set<Node>, linked: seq<Node>, rest: set<Node>)
    requires IsRoot(sqrt)
  {
    && Closest(t, sqrt, others, linked) && |linked| + |rest| == |others|
    && (forall n :: n in others <==> n in rest || n in linked)
    && (forall n :: n in linked ==> n !in rest)
  }

  lemma LinkNext(t: Task, sqrt: real -> real, others: set<Node>, linked: seq<Node>, rest: set<Node>, n: Node)
    requires IsRoot(sqrt) && Linking(t, sqrt, others, linked, rest)
    requires n in rest && forall m :: m in rest ==> Gap(t, sqrt, n) <= Gap(t, sqrt, m)
    ensures Linking(t, sqrt, others, linked + [n], rest - {n})
  {
    hide Gap;
    forall i, j | 0 <= i < j < |linked + [n]|
      ensures Gap(t, sqrt, (linked + [n])[i]) <= Gap(t, sqrt, (linked + [n])[j])
    {
      assert linked[i] in linked;
    }
  }

  lemma CarriesNothing(t: Task, sqrt: real -> real, start: Node, goal: Node)
    requires IsRoot(sqrt)
    ensures Carries(t, sqrt, [], {}) && Others([], start, goal) == {}
  {
  }

  lemma NothingLinked(t: Task, sqrt: real -> real, others: set<Node>, succ: Successors)
    requires IsRoot(sqrt)
    ensures Linking(t, sqrt, others, [], others) && LinkAll(t, succ, []) == succ
  {
  }

  lemma OthersOneMore(nodes: seq<Node>, k: nat, start: Node, goal: Node)
    requires k < |nodes| && Distinct(nodes)
    ensures nodes[k] !in Others(nodes[..k], start, goal)
    ensures Others(nodes[..k + 1], start, goal)
            == Others(nodes[..k], start, goal) + if nodes[k] == goal || nodes[k] == start then {} else {nodes[k]}
  {
    assert nodes[..k + 1] == nodes[..k] + [nodes[k]];
    assert forall n :: n in nodes[..k + 1] <==> n in nodes[..k] || n == nodes[k];
  }

  lemma PoppedIsClosest(t: Task, sqrt: real -> real, q: seq<Item<Node>>, ns: set<Node>, item: Item<Node>)
    requires IsRoot(sqrt) && Carries(t, sqrt, q, ns) && item in q && forall it :: it in q ==>
      item.priority <= it.priority
    ensures item.value in ns && forall m :: m in ns ==> Gap(t, sqrt, item.value) <= Gap(t, sqrt, m)
  {
    hide Gap;
    forall m | m in ns ensures Gap(t, sqrt, item.value) <= Gap(t, sqrt, m) {
      var it :| it in q && it.value == m;
      assert it.priority == Gap(t, sqrt, it.value);
    }
  }

  lemma LinkAllOneMore(t: Task, succ: Successors, linked: seq<Node>, n: Node)
    ensures LinkAll(t, succ, linked + [n]) == WithEdge(LinkAll(t, succ, linked), n, OpportunisticLink(t))
  {
    assert (linked + [n])[..|linked|] == linked;
  }

  lemma AllLinkedOrEmpty(t: Task, sqrt: real -> real, others: set<Node>, linked: seq<Node>, rest: set<Node>,
                         q: seq<Item<Node>>)
    requires IsRoot(sqrt) && Linking(t, sqrt, others, linked, rest) && Carries(t, sqrt, q, rest)
    ensures Closest(t, sqrt, others, linked) && |linked| <= |others| && (q == [] ==> |linked| == |others|)
  {
  }

  /** s is to be linked rather than s', or may as well be. */
  predicate NotFurther(t: Task, s: State, s': State)
  {
    var x, y := SquaresSum(s, t.goal), SquaresSum(s', t.goal);
    if IsBetter(s', t.goal, t.profiles) then
      if y == 0.0 then IsBetter(s, t.goal, t.profiles) || x == 0.0
      else IsBetter(s, t.goal, t.profiles) && 0.0 < x <= y
    else IsBetter(s, t.goal, t.profiles) || x <= y
  }

  lemma ClosestIsNotFurther(t: Task, sqrt: real -> real, nodes: seq<Node>, start: Node, goal: Node, linked: seq<Node>)
    requires IsRoot(sqrt) && Closest(t, sqrt, Others(nodes, start, goal), linked)
    ensures forall n :: n in linked ==> n in nodes && n != start && n != goal
    ensures forall n, m :: n in linked && m in nodes && m != start && m != goal && m !in linked ==>
              NotFurther(t, n.value, m.value)
    ensures forall i, j :: 0 <= i < j < |linked| ==> NotFurther(t, linked[i].value, linked[j].value)
  {
    hide IsBetter, SquaresSum, Gap, IsRoot;
    forall n, m | n in linked && m in nodes && m != start && m != goal && m !in linked
      ensures NotFurther(t, n.value, m.value)
    {
      assert m in Others(nodes, start, goal);
      CloserBySquares(t, sqrt, n, m);
    }
    forall i, j | 0 <= i < j < |linked| ensures NotFurther(t, linked[i].value, linked[j].value) {
      CloserBySquares(t, sqrt, linked[i], linked[j]);
    }
  }

  /** Links the states closest to the goal to it, as many as are asked for and there are. */
  method AddAdditionalStates(t: Task, sqrt: real -> real, sg: StateGraph, start: Node, goal: Node)
    returns (ghost linked: seq<Node>)
    requires IsRoot(sqrt) && Distinct(sg.nodes) && goal == EndNode(t)
    modifies sg
    ensures sg.nodes == old(sg.nodes) && sg.successors == LinkAll(t, old(sg.successors), linked)
    ensures Closest(t, sqrt, Others(sg.nodes, start, goal), linked)
    ensures forall n :: n in linked ==> n in sg.nodes && n != start && n != goal
    ensures forall n, m :: n in linked && m in sg.nodes && m != start && m != goal && m !in linked ==>
              NotFurther(t, n.value, m.value)
    ensures forall i, j :: 0 <= i < j < |linked| ==> NotFurther(t, linked[i].value, linked[j].value)
    ensures var wanted, there := t.cfg.opportunisticCandidates, |Others(sg.nodes, start, goal)|;
            |linked| == if wanted <= 0 then 0 else if wanted < there then wanted else there
  {
    hide Gap, HeapOrder, Carries, Linking, Closest, LinkAll, IsRoot, Distinct, IsBetter, Others, NotFurther;
    var minDistances := new PriorityQueue<Node>();
    var k := 0;
    ghost var ns: set<Node> := {};
    CarriesNothing(t, sqrt, start, goal);
    assert sg.nodes[..0] == [];
    while k < |sg.nodes|
      invariant 0 <= k <= |sg.nodes| && unchanged(sg)
      invariant fresh(minDistances) && fresh(minDistances.queue) && minDistances.Valid()
      invariant ns == Others(sg.nodes[..k], start, goal) && Carries(t, sqrt, minDistances.queue, ns)
    {
      var node := sg.nodes[k];
      OthersOneMore(sg.nodes, k, start, goal);
      k := k + 1;
      if node == goal || node == start {
        continue;
      }
      var item := new Item(node, Gap(t, sqrt, node));
      ghost var q := minDistances.queue;
      Heap.Push(minDistances, item);
      CarriesOneMore(t, sqrt, q, ns, item, minDistances.queue);
      ns := ns + {node};
    }
    assert sg.nodes[..k] == sg.nodes;
    ghost var others := ns;
    linked := [];
    NothingLinked(t, sqrt, others, sg.successors);
    var i := 0;
    while i < t.cfg.opportunisticCandidates
      invariant 0 <= i && (i <= t.cfg.opportunisticCandidates || i == 0) && |linked| == i
      invariant sg.nodes == old(sg.nodes) && sg.successors == LinkAll(t, old(sg.successors), linked)
      invariant fresh(minDistances) && fresh(minDistances.queue) && minDistances.Valid()
      invariant Linking(t, sqrt, others, linked, ns) && Carries(t, sqrt, minDistances.queue, ns)
    {
      if minDistances.Len() > 0 {
        ghost var q := minDistances.queue;
        var item := Heap.Pop(minDistances);
        PoppedIsClosest(t, sqrt, q, ns, item);
        CarriesOneLess(t, sqrt, q, ns, item, minDistances.queue);
        LinkNext(t, sqrt, others, linked, ns, item.value);
        LinkAllOneMore(t, old(sg.successors), linked, item.value);
        sg.AddEdge(item.value, goal, 0.0, OPPORTUNISTIC);
        linked, ns := linked + [item.value], ns - {item.value};
      } else {
        break;
      }
      i := i + 1;
    }
    AllLinkedOrEmpty(t, sqrt, others, linked, ns, minDistances.queue);
    ClosestIsNotFurther(t, sqrt, sg.nodes, start, goal, linked);
  }

  // ---------------------------------------------------------------- planning

  lemma {:induction false} LinkAllEdges(t: Task, succ: Successors, linked: seq<Node>)
    ensures Extends(succ, LinkAll(t, succ, linked))
    ensures forall n, e :: e in Out(LinkAll(t, succ, linked), n) ==>
      e in Out(succ, n) || (n in linked && e == OpportunisticLink(t))
    ensures forall n :: n in linked ==> OpportunisticLink(t) in Out(LinkAll(t, succ, linked), n)
    decreases |linked|
  {
    if linked != [] {
      var fewer, last := linked[..|linked| - 1], linked[|linked| - 1];
      LinkAllEdges(t, succ, fewer);
      WithEdgeExtends(LinkAll(t, succ, fewer), last, OpportunisticLink(t));
      assert linked == fewer + [last];
    }
  }

  /** A linked node leads to the goal at no cost; no other edge is added. */
  lemma LinksAre(t: Task, succ: Successors, linked: seq<Node>, n: Node, e: Edge)
    ensures e in Out(LinkAll(t, succ, linked), n) <==>
              || e in Out(succ, n)
              || (n in linked && e == Edge(Node(1, t.goal), 0.0, Action("opportunistic", NoProperties)))
  {
    LinkAllEdges(t, succ, linked);
  }

  lemma NodesAreDistinct(t: Task, g: Growth)
    requires Shape(t, g)
    ensures Distinct(g.nodes)
    ensures forall n :: n in Others(g.nodes, StartNode(t), EndNode(t)) <==> Known(g.nodes, n) && 2 <= n.address
  {
    assert forall n :: n in g.nodes ==> Known(g.nodes, n);
    assert forall n :: Known(g.nodes, n) ==> n in g.nodes;
  }

  /** All nodes but start and goal may be linked. */
  lemma {:induction false} OthersCount(t: Task, g: Growth, k: nat)
    requires Shape(t, g) && k <= |g.nodes|
    ensures |Others(g.nodes[..k], StartNode(t), EndNode(t))| == if k < 2 then 0 else k - 2
  {
    if k == 0 {
      assert Others(g.nodes[..0], StartNode(t), EndNode(t)) == {};
    } else {
      NodesAreDistinct(t, g);
      OthersCount(t, g, k - 1);
      OthersOneMore(g.nodes, k - 1, StartNode(t), EndNode(t));
    }
  }

  lemma OpportunisticGraph(t: Task, g: Growth, linked: seq<Node>)
    requires Grown(t, g) && forall n :: n in linked ==> n in Others(g.nodes, StartNode(t), EndNode(t))
    ensures g.expanded < |g.nodes| && PlanGraph(t, Transcript(g), linked, LinkAll(t, g.succ, linked))
    ensures linked != [] ==> Reachable(LinkAll(t, g.succ, linked), StartNode(t), EndNode(t))
  {
    hide IsBetter, Proposed, NoTwins, AllHaveParents, Layered, AllLinked, LinkAll;
    var succ := LinkAll(t, g.succ, linked);
    LinkAllEdges(t, g.succ, linked);
    NodesAreDistinct(t, g);
    TranscriptHolds(t, g);
    forall src, e | e in Out(succ, src) ensures PlanEdge(t, Transcript(g), linked, succ, src, e) {
      if e in Out(g.succ, src) {
        assert EdgeOk(t, g, src, e);
      }
    }
    if linked != [] {
      var n := linked[0];
      assert n in linked;
      var w := DiscoveredRoute(t, g, n.address);
      WalkExtends(g.succ, succ, StartNode(t), w);
      assert IsRoute(succ, StartNode(t), Then(w, OpportunisticLink(t)), EndNode(t));
    }
  }

  /**
   * What went into a plan: the graph with and without opportunistic links, the way through it, and the states passed.
   */
  datatype Account = Account(g: Growth, asked: seq<State>, sc: Shortcut, nodes: seq<Node>, base: Successors,
                             linked: seq<Node>, graph: Successors, route: Walk, run: seq<Snapshot>, states: seq<State>)

  /** The way was found by a run of the search that the distance guides. */
  ghost predicate Searched(t: Task, sqrt: real -> real, why: Account)
    requires IsRoot(sqrt)
  {
    var p := PlanProblem(t, sqrt, why.graph);
    && IsRoute(why.graph, StartNode(t), why.route, EndNode(t)) && IsRun(p, why.run)
    && TakesGoal(p, why.run[|why.run| - 1], Nodes(StartNode(t), why.route))
    && NoDearer(p, why.route) && NoHigher(p, why.route)
  }

  ghost predicate PlanFound(t: Task, why: Account, plan: seq<Action>)
  {
    && IsRoute(why.graph, StartNode(t), why.route, EndNode(t)) && Simple(StartNode(t), why.route)
    && plan == Kept(Actions(why.route))
    && CheapestThroughMet(t, why.graph, why.route)
    && (NamesFree(t) ==>
          && Replays(t, why.asked, plan, why.states) && Arrives(t, why.linked, why.route, why.states[|plan|])
          && (plan == [] ==> IsBetter(t.start, t.goal, t.profiles)))
  }

  lemma FoundIsSearched(t: Task, sqrt: real -> real, why: Account, path: seq<Node>, actions: seq<Action>)
    returns (route: Walk, run: seq<Snapshot>)
    requires IsRoot(sqrt) && Solved(PlanProblem(t, sqrt, why.graph), path, actions) && path != []
    ensures Searched(t, sqrt, why.(route := route, run := run))
    ensures Simple(StartNode(t), route) && actions == Actions(route)
  {
    hide NoDearer, NoHigher, Reachable, IsRun, TakesGoal, Distance;
    var p := PlanProblem(t, sqrt, why.graph);
    DistanceSign(sqrt, t.goal, t.goal, t.profiles);
    route :| IsAnswer(p, path, actions, route);
    run :| EndsWith(p, run, path);
  }

  /** Searches the planning graph; there is a plan exactly if the goal can be reached. */
  method Search(t: Task, sqrt: real -> real, sg: StateGraph, ghost why: Account)
    returns (actions: seq<Action>, ghost why': Account)
    requires IsRoot(sqrt) && PricesNonNegative(t)
    requires why.graph == sg.successors && PlanGraph(t, why.asked, why.linked, why.graph)
    ensures why' == why.(route := why'.route, run := why'.run, states := why'.states)
    ensures Reachable(why.graph, StartNode(t), EndNode(t)) ==>
              PlanFound(t, why', Kept(actions)) && Searched(t, sqrt, why')
    ensures !Reachable(why.graph, StartNode(t), EndNode(t)) ==> actions == []
  {
    hide IsRoot, PricesNonNegative, PlanGraph, CheapestThroughMet, NoDearer, Reachable, IsBetter, Distance, NamesFree,
         Replays, IsRun, TakesGoal;
    PlanGraphIsNonNegative(t, why.asked, why.linked, why.graph);
    var path, found := Solve(sg, StartNode(t), EndNode(t), H(sqrt), true, t.profiles);
    actions, why' := found, why;
    if path != [] {
      ghost var route, run := FoundIsSearched(t, sqrt, why, path, found);
      why' := why.(route := route, run := run);
      SearchIsCheapestThroughMet(t, sqrt, why.graph, route);
      if NamesFree(t) {
        ghost var states := RouteIsPlan(t, why.asked, why.linked, why.graph, route);
        why' := why'.(states := states);
        ReplayLength(t, why.asked, Kept(actions), states);
      }
    }
  }

  /**
   * A plan is made along a way that the distance lets lead no higher than any other. It is a cheapest one if all such
   * ways are, and only if one of them is; if they cost the same, exactly then.
   */
  lemma PlanIsCheapestIff(t: Task, sqrt: real -> real, why: Account)
    requires IsRoot(sqrt) && Searched(t, sqrt, why)
    ensures var p := PlanProblem(t, sqrt, why.graph);
            && Lowest(p, why.route)
            && ((forall w :: Lowest(p, w) ==> Cheapest(p, w)) ==> Cheapest(p, why.route))
            && (Cheapest(p, why.route) ==> exists w :: Lowest(p, w) && Cheapest(p, w))
            && (LowestCostTheSame(p) ==> (Cheapest(p, why.route) <==> exists w :: Lowest(p, w) && Cheapest(p, w)))
  {
    hide NoDearer, NoHigher, IsRun, TakesGoal, Cheapest, LowestCostTheSame;
    LowestDecides(PlanProblem(t, sqrt, why.graph), why.route);
  }

  /** The distance does not overestimate what is left of a way of the given cost, at the nodes of v after the first. */
  ghost predicate NeverFarther(t: Task, sqrt: real -> real, v: Walk, total: real)
    requires IsRoot(sqrt)
  {
    v.Then? ==>
      && Distance(sqrt, v.edge.node.value, t.goal, t.profiles) <= total - Cost(v, true)
      && NeverFarther(t, sqrt, v.before, total)
  }

  lemma {:induction false} NeverFartherIsHonest(t: Task, sqrt: real -> real, succ: Successors, v: Walk, total: real)
    requires IsRoot(sqrt) && NeverFarther(t, sqrt, v, total)
    ensures Honest(PlanProblem(t, sqrt, succ), v, total)
  {
    hide IsRoot, Distance;
    if v.Then? {
      NeverFartherIsHonest(t, sqrt, succ, v.before, total);
    }
  }

  /** The way of a plan costs no more than any way along which the distance to the goal never overestimates. */
  lemma PlanIsNoDearer(t: Task, sqrt: real -> real, why: Account, w: Walk)
    requires IsRoot(sqrt) && Searched(t, sqrt, why) && NonNegative(why.graph, true)
    requires IsRoute(why.graph, StartNode(t), w, EndNode(t))
    requires w.Then? ==> NeverFarther(t, sqrt, w.before, Cost(w, true))
    ensures Cost(why.route, true) <= Cost(w, true)
  {
    hide IsRoot, Distance, NoDearer, NoHigher, IsRun, TakesGoal;
    var p := PlanProblem(t, sqrt, why.graph);
    if w.Then? {
      NeverFartherIsHonest(t, sqrt, why.graph, w.before, Cost(w, true));
    }
    HonestIsCheapest(p, why.route, w);
  }

  lemma ReplayLength(t: Task, asked: seq<State>, plan: seq<Action>, states: seq<State>)
    requires Replays(t, asked, plan, states)
    ensures |states| == |plan| + 1
  {
  }

  ghost predicate GoalInSight(t: Task, why: Account)
  {
    GoalWasMet(t, why.g.nodes) || why.sc.Shortcut?
  }

  lemma FinishedShape(t: Task, g: Growth, sc: Shortcut, nodes: seq<Node>, succ: Successors)
    requires Finished(t, g, sc, nodes, succ)
    ensures Grown(t, g) && Shape(t, g) && (sc.NoShortcut? ==> nodes == g.nodes && succ == g.succ)
  {
    hide Grown;
    GrownShape(t, g);
  }

  /** The last loop of planning: drops the planner's own actions. */
  method DropOwnActions(plan: seq<Action>) returns (finalPlan: seq<Action>)
    ensures finalPlan == Kept(plan)
    ensures forall a :: a in finalPlan ==> a.name != EMPTY_ACTION_NAME && a.name != OPPORTUNISTIC_ACTION_NAME
  {
    finalPlan := [];
    var i := 0;
    while i < |plan|
      invariant 0 <= i <= |plan| && finalPlan == Kept(plan[..i])
      invariant forall a :: a in finalPlan ==> a.name != EMPTY_ACTION_NAME && a.name != OPPORTUNISTIC_ACTION_NAME
    {
      var item := plan[i];
      assert plan[..i + 1] == plan[..i] + [item];
      KeptAdds(plan[..i], item);
      i := i + 1;
      if item.name == EMPTY_ACTION_NAME || item.name == OPPORTUNISTIC_ACTION_NAME {
        continue;
      }
      finalPlan := finalPlan + [item];
    }
    assert plan[..i] == plan;
  }

  method CreatePlan(t: Task, sqrt: real -> real) returns (finalPlan: seq<Action>, ghost why: Account)
    requires IsRoot(sqrt) && AllWellFormed(t) && PricesNonNegative(t)
    ensures forall a :: a in finalPlan ==> a.name != EMPTY_ACTION_NAME && a.name != OPPORTUNISTIC_ACTION_NAME
    ensures Replayable(t, finalPlan)
    ensures Generated(t, why.g, why.sc, why.nodes, why.base) && why.asked == Transcript(why.g)
    ensures GoalInSight(t, why) ==>
              why.linked == [] && why.graph == why.base && PlanFound(t, why, finalPlan) && Searched(t, sqrt, why)
    ensures !GoalInSight(t, why) && t.cfg.opportunisticCandidates <= 0 ==> finalPlan == []
    ensures !GoalInSight(t, why) && t.cfg.opportunisticCandidates > 0 ==>
              && var there := |why.nodes| - 2;
              && |why.linked| ==
                 (if t.cfg.opportunisticCandidates < there then t.cfg.opportunisticCandidates else there)
              && Closest(t, sqrt, Others(why.nodes, StartNode(t), EndNode(t)), why.linked)
              && (forall n, m ::
                    n in why.linked && m in why.nodes && m != StartNode(t) && m != EndNode(t) && m !in why.linked ==>
                      SquaresSum(n.value, t.goal) <= SquaresSum(m.value, t.goal))
              && (forall i, j :: 0 <= i < j < |why.linked| ==>
                    SquaresSum(why.linked[i].value, t.goal) <= SquaresSum(why.linked[j].value, t.goal))
              && why.graph == LinkAll(t, why.base, why.linked)
              && if why.linked != [] || GoalOffered(t, why.g) then
                   PlanFound(t, why, finalPlan) && Searched(t, sqrt, why)
                 else finalPlan == []
  {
    hide Proposed, Askable, Finished, Replays, IsRoot, PricesNonNegative, PlanGraph, PlanFound, Searched,
         Reachable, IsBetter, Closest, GoalOffered, GoalWasMet, Priced, Grown, Replayable, Heard, AllWellFormed,
         LinkAll, Others, SquaresSum, NotFurther;
    var plan: seq<Action> := [];
    var sg, s0, g0, goal, g, sc := GenerateStateGraph(t);
    FinishedShape(t, g, sc, sg.nodes, sg.successors);
    why := Account(g, Transcript(g), sc, sg.nodes, sg.successors, [], sg.successors, Stay, [], []);
    FinishedIsPlanGraph(t, g, sc, sg.nodes, sg.successors);
    HasGoalIffReachable(t, g, sc, sg.nodes, sg.successors);
    if goal {
      plan, why := Search(t, sqrt, sg, why);
    } else {
      if t.cfg.opportunisticCandidates > 0 {
        NodesAreDistinct(t, g);
        OthersCount(t, g, |g.nodes|);
        assert g.nodes[..|g.nodes|] == g.nodes;
        ghost var linked := AddAdditionalStates(t, sqrt, sg, s0, g0);
        ClosestAreOthers(t, sqrt, Others(g.nodes, s0, g0), linked);
        LinkedAreClosest(t, sqrt, g, linked);
        OpportunisticGraph(t, g, linked);
        LinksOrOffer(t, g, linked);
        why := why.(linked := linked, graph := sg.successors);
        plan, why := Search(t, sqrt, sg, why);
      }
    }
    finalPlan := DropOwnActions(plan);
    PlanIsReplayable(t, why, finalPlan);
  }

  /** With action names that stand for themselves, each action of the plan can be taken after the one before. */
  ghost predicate Replayable(t: Task, plan: seq<Action>)
  {
    NamesFree(t) ==> exists asked, states :: Replays(t, asked, plan, states)
  }

  lemma PlanIsReplayable(t: Task, why: Account, plan: seq<Action>)
    requires PlanFound(t, why, plan) || plan == []
    ensures Replayable(t, plan)
  {
    hide NamesFree;
    assert Replays(t, [], [], [t.start]);
  }

  /** With no goal in sight, the states linked are those whose objectives are nearest to the goal's. */
  lemma LinkedAreClosest(t: Task, sqrt: real -> real, g: Growth, linked: seq<Node>)
    requires IsRoot(sqrt) && Shape(t, g) && !GoalWasMet(t, g.nodes)
    requires Closest(t, sqrt, Others(g.nodes, StartNode(t), EndNode(t)), linked)
    ensures forall n, m :: n in linked && m in g.nodes && m != StartNode(t) && m != EndNode(t) && m !in linked ==>
              SquaresSum(n.value, t.goal) <= SquaresSum(m.value, t.goal)
    ensures forall i, j :: 0 <= i < j < |linked| ==>
              SquaresSum(linked[i].value, t.goal) <= SquaresSum(linked[j].value, t.goal)
  {
    hide IsBetter, SquaresSum, Closest;
    var others := Others(g.nodes, StartNode(t), EndNode(t));
    NodesAreDistinct(t, g);
    forall n | n in others ensures !IsBetter(n.value, t.goal, t.profiles) {
      assert n in g.nodes && !MeetsGoal(t, n);
    }
    ClosestBySquares(t, sqrt, others, linked);
  }

  lemma ClosestAreOthers(t: Task, sqrt: real -> real, others: set<Node>, linked: seq<Node>)
    requires IsRoot(sqrt) && Closest(t, sqrt, others, linked)
    ensures forall n :: n in linked ==> n in others
  {
  }

  /** With links there is a way to the goal; without any, only a proposed state equal to the goal makes one. */
  lemma LinksOrOffer(t: Task, g: Growth, linked: seq<Node>)
    requires Grown(t, g) && !GoalWasMet(t, g.nodes)
    requires forall n :: n in linked ==> n in Others(g.nodes, StartNode(t), EndNode(t))
    ensures Reachable(LinkAll(t, g.succ, linked), StartNode(t), EndNode(t)) <==> linked != [] || GoalOffered(t, g)
  {
    hide IsBetter, Grown, GoalWasMet, GoalOffered, Others;
    var succ := LinkAll(t, g.succ, linked);
    ReachableIffMet(t, g);
    if linked != [] {
      OpportunisticGraph(t, g, linked);
    } else if GoalOffered(t, g) {
      var w :| IsRoute(g.succ, StartNode(t), w, EndNode(t));
      assert IsRoute(succ, StartNode(t), w, EndNode(t));
    }
  }

  /** Whenever the goal is in sight, the plan ends in a state that meets it. */
  lemma PlanMeetsGoal(t: Task, why: Account, plan: seq<Action>)
    requires Finished(t, why.g, why.sc, why.nodes, why.base) && NamesFree(t) && GoalInSight(t, why)
    requires PlanFound(t, why, plan) && why.linked == []
    ensures IsBetter(why.states[|plan|], t.goal, t.profiles)
  {
    hide IsBetter, Proposed, Grown, Priced, Replays, CheapestThroughMet, Reachable, Simple;
    var model := if IsBetter(t.start, t.goal, t.profiles) then t.start else
                     var n :| n in why.g.nodes && MeetsGoal(t, n);
                     n.value;
    GoalMeetsItself(model, t.goal, t.profiles);
  }

  /** A goal that anything meets is met by itself: it has objectives. */
  lemma GoalMeetsItself(s: State, goal: State, profiles: Profiles)
    requires IsBetter(s, goal, profiles)
    ensures IsBetter(goal, goal, profiles)
  {
  }

  /** If neither a discovered state meets the goal nor a proposed one equals it, the plan ends in a linked node. */
  lemma PlanEndsLinked(t: Task, why: Account, plan: seq<Action>)
    requires Grown(t, why.g) && NamesFree(t) && !GoalWasMet(t, why.g.nodes) && !GoalOffered(t, why.g)
    requires PlanFound(t, why, plan) && why.graph == LinkAll(t, why.g.succ, why.linked)
    ensures why.route.Then? && var last := End(StartNode(t), why.route.before);
            last in why.linked && why.states[|plan|] == last.value
  {
    hide IsBetter, Proposed, Replays, CheapestThroughMet, LinkAll, NoTwins, AllHaveParents, Layered, AllLinked;
    var src, e := End(StartNode(t), why.route.before), why.route.edge;
    assert e in Out(why.graph, src);
    LinkAllEdges(t, why.g.succ, why.linked);
    assert e in Out(why.g.succ, src) ==> EdgeOk(t, why.g, src, e);
    assert Known(why.g.nodes, src) ==> src in why.g.nodes;
  }

  // ---------------------------------------------------------------- where hasGoal misses a way to the goal

  function OnlyTheGoal(a: Action): Actuators
  {
    (round: nat, s: State, goal: State, profiles: Profiles) => [Answer([goal], [1.0], [a])]
  }

  /**
   * A start that falls short, and actuators that always propose the very goal state: its node is found in the graph
   * already, so no link is made. Every graph made for such a task leads to the goal in one action, and yet misses it.
   */
  lemma ProposedGoalIsMissed(t: Task, g: Growth, sc: Shortcut, nodes: seq<Node>, succ: Successors, a: Action)
    requires t.actuators == OnlyTheGoal(a) && t.cfg.maxStates > 2 && t.cfg.maxCandidates > 0
    requires !IsBetter(t.start, t.goal, t.profiles) && t.start != t.goal
    requires Generated(t, g, sc, nodes, succ)
    ensures !GoalWasMet(t, g.nodes) && sc.NoShortcut? && Reachable(succ, StartNode(t), EndNode(t))
  {
    hide IsBetter, GoalWasMet, GoalOffered, Reachable;
    OnlyGoalDiscovered(t, g, a);
    HasGoalIffReachable(t, g, sc, nodes, succ);
  }

  /** So the flag is false for a goal that can be reached, whatever else the task is. */
  method MissesProposedGoal(t: Task, a: Action)
    returns (hasGoal: bool, sg: StateGraph, ghost g: Growth, ghost sc: Shortcut)
    requires t.actuators == OnlyTheGoal(a) && t.cfg.maxStates > 2 && t.cfg.maxCandidates > 0
    requires !IsBetter(t.start, t.goal, t.profiles) && t.start != t.goal
    ensures Generated(t, g, sc, sg.nodes, sg.successors) && (hasGoal <==> GoalWasMet(t, g.nodes) || sc.Shortcut?)
    ensures !hasGoal && Reachable(sg.successors, StartNode(t), EndNode(t))
  {
    hide IsBetter, GoalWasMet, Generated, Reachable;
    var s0, g0;
    sg, s0, g0, hasGoal, g, sc := GenerateStateGraph(t);
    ProposedGoalIsMissed(t, g, sc, sg.nodes, sg.successors, a);
  }

  lemma OnlyGoalProposed(t: Task, a: Action, round: nat, s: State, e: Edge)
    requires t.actuators == OnlyTheGoal(a) && Proposed(t, round, s, e)
    ensures e.node.value == t.goal
  {
  }

  lemma NothingDiscovered(t: Task, g: Growth, a: Action)
    requires t.actuators == OnlyTheGoal(a) && Grown(t, g)
    ensures |g.nodes| == 2
  {
    hide IsBetter, Proposed;
    if |g.nodes| > 2 {
      assert HasParent(g, 2);
      var j: nat, e :| j < 2 && j != 1 && e in Out(g.succ, g.nodes[j]) && e.node == g.nodes[2]
                       && g.depth[2] == g.depth[j] + 1;
      assert EdgeOk(t, g, g.nodes[j], e);
      OnlyGoalProposed(t, a, Rank(g.nodes[j]), g.nodes[j].value, e);
    }
  }

  lemma OnlyGoalDiscovered(t: Task, g: Growth, a: Action)
    requires t.actuators == OnlyTheGoal(a) && t.cfg.maxStates > 2 && t.cfg.maxCandidates > 0 && t.start != t.goal
    requires Grown(t, g) && Heard(t, g, g.expanded) && (g.expanded + 1 == |g.nodes| || |g.nodes| >= t.cfg.maxStates)
    ensures !GoalWasMet(t, g.nodes) && GoalOffered(t, g)
  {
    hide IsBetter, Proposed;
    NothingDiscovered(t, g, a);
    assert HeardOne(t, g, 0);
    var answers := Ask(t, 0, t.start);
    assert answers == [Answer([t.goal], [1.0], [a])];
    assert HasEdgeFor(g.succ, g.nodes[0], answers[0], 0);
    var e :| e in Out(g.succ, g.nodes[0]) && e.node.value == t.goal && e.utility == 1.0 && e.action == a;
    assert EdgeOk(t, g, g.nodes[0], e);
  }
}
