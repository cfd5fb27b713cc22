/** The planner of pkg/planner/astar/astar_planner.go: building the state graph. */
module StateGraphBuilder {
  import opened Types
  import opened StateGraphs
  import opened AStar

  const EMPTY_ACTION_NAME := "done"
  const DONE := Action(EMPTY_ACTION_NAME, NoProperties)

  datatype Config = Config(maxStates: int, maxCandidates: int, opportunisticCandidates: int)

  /** What one call of an actuator's NextState returns. */
  datatype Answer = Answer(candidates: seq<State>, utils: seq<real>, actions: seq<Action>)

  /**
   * What the plugin manager's Iter collects when the planner asks all actuators about a state. The set of plugins,
   * their order and their answers may change from one round of questions to the next; the first argument counts rounds.
   */
  type Actuators = (nat, State, State, Profiles) -> seq<Answer>

  datatype Task = Task(cfg: Config, actuators: Actuators, start: State, goal: State, profiles: Profiles)

  function Ask(t: Task, round: nat, s: State): seq<Answer>
  {
    t.actuators(round, s, t.goal, t.profiles)
  }

  /** How many candidates of an answer the planner looks at. */
  function Considered(cfg: Config, a: Answer): nat
  {
    if cfg.maxCandidates <= 0 then 0 else if |a.candidates| < cfg.maxCandidates then |a.candidates|
      else cfg.maxCandidates
  }

  /** Every candidate looked at comes with a utility and an action. */
  ghost predicate WellFormed(cfg: Config, a: Answer)
  {
    Considered(cfg, a) <= |a.utils| && Considered(cfg, a) <= |a.actions|
  }

  /** Candidate i of answer j in that round is e's target, at e's utility and through e's action. */
  ghost predicate OfferedAt(t: Task, round: nat, j: nat, i: nat, s: State, e: Edge)
  {
    && j < |Ask(t, round, s)|
    && var a := Ask(t, round, s)[j];
    && i < Considered(t.cfg, a) && i < |a.utils| && i < |a.actions|
    && a.candidates[i] == e.node.value && a.utils[i] == e.utility && a.actions[i] == e.action
  }

  /** Some actuator, asked about s in that round, proposes the state, the utility and the action of e. */
  ghost predicate Offered(t: Task, round: nat, s: State, e: Edge)
  {
    exists j: nat, i: nat :: OfferedAt(t, round, j, i, s, e)
  }

  /** In round r the planner may ask about asked[r]: a state that was proposed earlier, is new, and is not the goal. */
  ghost predicate MayFollow(t: Task, asked: seq<State>, r: nat)
    requires r < |asked|
  {
    if r == 0 then asked[0] == t.start
    else
      && asked[r] != t.goal && asked[r] !in asked[..r]
      && exists q: nat, e :: q < r && Offered(t, q, asked[q], e) && e.node.value == asked[r]
  }

  /** The states the planner may ask about, round by round. */
  ghost predicate IsTranscript(t: Task, asked: seq<State>)
  {
    forall r: nat :: r < |asked| ==> MayFollow(t, asked, r)
  }

  /** The planner may come to ask about s in that round. */
  ghost predicate Askable(t: Task, round: nat, s: State)
  {
    exists asked :: IsTranscript(t, asked) && round < |asked| && asked[round] == s
  }

  /** What holds of start and passes on from each state to whatever is proposed for it holds of all askable states. */
  ghost predicate IsInvariant(t: Task, good: State -> bool)
  {
    good(t.start) && forall round: nat, s, e :: good(s) && Offered(t, round, s, e) ==> good(e.node.value)
  }

  lemma {:induction false} InvariantAlong(t: Task, good: State -> bool, asked: seq<State>, r: nat)
    requires IsInvariant(t, good) && IsTranscript(t, asked) && r < |asked|
    ensures good(asked[r])
    decreases r
  {
    hide Offered;
    assert MayFollow(t, asked, r);
    if r > 0 {
      var q: nat, e :| q < r && Offered(t, q, asked[q], e) && e.node.value == asked[r];
      InvariantAlong(t, good, asked, q);
    }
  }

  lemma InvariantHolds(t: Task, good: State -> bool, round: nat, s: State)
    requires IsInvariant(t, good) && Askable(t, round, s)
    ensures good(s)
  {
    var asked :| IsTranscript(t, asked) && round < |asked| && asked[round] == s;
    InvariantAlong(t, good, asked, round);
  }

  /** Whatever the planner may hear comes with enough utilities and actions. */
  ghost predicate AllWellFormed(t: Task)
  {
    forall round: nat, s, j :: Askable(t, round, s) && 0 <= j < |Ask(t, round, s)| ==>
      WellFormed(t.cfg, Ask(t, round, s)[j])
  }

  /** Some actuator proposes e for a state the planner may ask about in that round. */
  ghost predicate Proposed(t: Task, round: nat, s: State, e: Edge)
  {
    Askable(t, round, s) && Offered(t, round, s, e)
  }

  function StartNode(t: Task): Node
  {
    Node(0, t.start)
  }

  function EndNode(t: Task): Node
  {
    Node(1, t.goal)
  }

  function GoalLink(t: Task): Edge
  {
    Edge(EndNode(t), 0.0, DONE)
  }

  // ---------------------------------------------------------------- what the breadth-first phase keeps

  /**
   * The graph while it grows. `depth` gives the discovery depth of each node by address, `expanded` counts the nodes
   * taken from the queue. Node 1 is the goal; it is never queued.
   */
  datatype Growth = Growth(nodes: seq<Node>, succ: Successors, depth: seq<nat>, expanded: nat)

  /** The address of the r-th node in queue order. */
  function Address(r: nat): nat
  {
    if r == 0 then 0 else r + 1
  }

  function Rank(n: Node): nat
  {
    if n.address == 0 then 0 else n.address - 1
  }

  predicate Known(nodes: seq<Node>, n: Node)
  {
    n.address < |nodes| && nodes[n.address] == n
  }

  ghost predicate Shape(t: Task, g: Growth)
  {
    && 2 <= |g.nodes| == |g.depth| && g.nodes[0] == StartNode(t) && g.nodes[1] == EndNode(t)
    && (forall i :: 0 <= i < |g.nodes| ==> g.nodes[i].address == i)
    && g.expanded < |g.nodes| && (g.expanded == 0 ==> |g.nodes| == 2)
  }

  /** No discovered state equals another one, the start or the goal. */
  ghost predicate NoTwins(nodes: seq<Node>)
  {
    forall i, j :: 0 <= i < j < |nodes| && 2 <= j ==> nodes[i].value != nodes[j].value
  }

  /** An edge that an actuator proposed. */
  ghost predicate IsStep(t: Task, src: Node, e: Edge)
  {
    src.address != 1 && Proposed(t, Rank(src), src.value, e)
  }

  ghost predicate IsGoalLink(t: Task, src: Node, e: Edge)
  {
    2 <= src.address && IsBetter(src.value, t.goal, t.profiles) && e == GoalLink(t)
  }

  ghost predicate EdgeOk(t: Task, g: Growth, src: Node, e: Edge)
  {
    && Known(g.nodes, src) && Known(g.nodes, e.node)
    && (IsGoalLink(t, src, e)
        || (IsStep(t, src, e) && Rank(src) < g.expanded && Near(g.depth, src, e.node)))
  }

  /** No edge skips a level. */
  ghost predicate Near(depth: seq<nat>, src: Node, trg: Node)
  {
    && src.address < |depth| && trg.address < |depth|
    && (trg.address != 1 ==> depth[trg.address] <= depth[src.address] + 1)
  }

  ghost predicate EdgesOk(t: Task, g: Growth)
  {
    forall src, e :: e in Out(g.succ, src) ==> EdgeOk(t, g, src, e)
  }

  /** Node i was discovered one level below an earlier node, which has an edge to it. */
  ghost predicate HasParent(g: Growth, i: nat)
    requires i < |g.nodes| == |g.depth|
  {
    exists j: nat, e :: j < i && j != 1 && e in Out(g.succ, g.nodes[j]) && e.node == g.nodes[i]
      && g.depth[i] == g.depth[j] + 1
  }

  ghost predicate AllHaveParents(g: Growth)
    requires |g.nodes| == |g.depth|
  {
    forall i :: 2 <= i < |g.nodes| ==> HasParent(g, i)
  }

  /** Depths grow along the queue order, and none is more than one below the node expanded last. */
  ghost predicate Layered(g: Growth)
    requires 2 <= |g.nodes| == |g.depth| && g.expanded < |g.nodes|
  {
    && g.depth[0] == 0
    && (forall i, j :: 0 <= i <= j < |g.depth| && i != 1 && j != 1 ==> g.depth[i] <= g.depth[j])
    && (g.expanded > 0 ==> forall i :: 0 <= i < |g.depth| && i != 1 ==>
        g.depth[i] <= g.depth[Address(g.expanded - 1)] + 1)
  }

  ghost predicate MeetsGoal(t: Task, n: Node)
  {
    2 <= n.address && IsBetter(n.value, t.goal, t.profiles)
  }

  /** Every discovered state that meets the goal is linked to it. */
  ghost predicate AllLinked(t: Task, g: Growth)
  {
    forall n :: n in g.nodes && MeetsGoal(t, n) ==> GoalLink(t) in Out(g.succ, n)
  }

  ghost predicate Grown(t: Task, g: Growth)
  {
    && Shape(t, g) && NoTwins(g.nodes) && EdgesOk(t, g) && AllHaveParents(g) && Layered(g) && AllLinked(t, g)
  }

  /** Candidate i of answer a has its edge. */
  ghost predicate HasEdgeFor(succ: Successors, src: Node, a: Answer, i: nat)
  {
    i < |a.candidates| && i < |a.utils| && i < |a.actions|
    && exists e ::
        e in Out(succ, src) && e.node.value == a.candidates[i] && e.utility == a.utils[i] && e.action == a.actions[i]
  }

  /** The answers before j, and the first i candidates of answer j, have their edges. */
  ghost predicate HeardUpTo(t: Task, succ: Successors, src: Node, answers: seq<Answer>, j: nat, i: nat)
  {
    forall b: nat, c: nat :: b < |answers| && c < Considered(t.cfg, answers[b]) && (b < j || (b == j && c < i)) ==>
      HasEdgeFor(succ, src, answers[b], c)
  }

  /** The first x nodes in queue order have an edge for everything that was proposed for them. */
  ghost predicate Heard(t: Task, g: Growth, x: nat)
    requires x < |g.nodes|
  {
    forall r: nat :: r < x ==> HeardOne(t, g, r)
  }

  ghost predicate HeardOne(t: Task, g: Growth, r: nat)
    requires r + 1 < |g.nodes|
  {
    var n := g.nodes[Address(r)];
    var answers := Ask(t, r, n.value);
    HeardUpTo(t, g.succ, n, answers, |answers|, 0)
  }

  ghost predicate Extends(old_succ: Successors, succ: Successors)
  {
    forall n, e :: e in Out(old_succ, n) ==> e in Out(succ, n)
  }

  lemma WithEdgeExtends(succ: Successors, src: Node, e: Edge)
    ensures Extends(succ, WithEdge(succ, src, e)) && e in Out(WithEdge(succ, src, e), src)
    ensures forall n, f :: f in Out(WithEdge(succ, src, e), n) ==> f in Out(succ, n) || (n == src && f == e)
  {
  }

  // ---------------------------------------------------------------- one candidate

  function StepKnown(g: Growth, src: Node, e: Edge): Growth
  {
    g.(succ := WithEdge(g.succ, src, e))
  }

  function StepNew(t: Task, g: Growth, src: Node, e: Edge): Growth
    requires src.address < |g.depth|
  {
    var succ := WithEdge(g.succ, src, e);
    Growth(g.nodes + [e.node],
           if IsBetter(e.node.value, t.goal, t.profiles) then WithEdge(succ, e.node, GoalLink(t)) else succ,
           g.depth + [g.depth[src.address] + 1],
           g.expanded)
  }

  /** src is the node being expanded, and e is what an actuator proposes for it. */
  ghost predicate Hears(t: Task, g: Growth, src: Node, e: Edge)
  {
    && g.expanded > 0 && Known(g.nodes, src) && src.address == Address(g.expanded - 1)
    && Proposed(t, g.expanded - 1, src.value, e)
  }

  lemma EdgeOkStays(t: Task, g: Growth, g': Growth, src: Node, e: Edge)
    requires EdgeOk(t, g, src, e) && |g.depth| == |g.nodes|
    requires g.nodes <= g'.nodes && g.depth <= g'.depth && g'.expanded >= g.expanded
    ensures EdgeOk(t, g', src, e)
  {
  }

  lemma ParentStays(g: Growth, g': Growth, i: nat)
    requires |g.nodes| == |g.depth| && |g'.nodes| == |g'.depth| && i < |g.nodes| && HasParent(g, i)
    requires g.nodes <= g'.nodes && g.depth <= g'.depth && Extends(g.succ, g'.succ)
    ensures HasParent(g', i)
  {
    var j: nat, e :| j < i && j != 1 && e in Out(g.succ, g.nodes[j]) && e.node == g.nodes[i]
      && g.depth[i] == g.depth[j] + 1;
    assert e in Out(g'.succ, g'.nodes[j]);
  }

  lemma KnownKeepsGrown(t: Task, g: Growth, src: Node, e: Edge)
    requires Grown(t, g) && Hears(t, g, src, e) && Known(g.nodes, e.node)
    ensures Grown(t, StepKnown(g, src, e))
  {
    hide IsBetter, Proposed;
    var g' := StepKnown(g, src, e);
    WithEdgeExtends(g.succ, src, e);
    assert Near(g.depth, src, e.node);
    forall s, f | f in Out(g'.succ, s) ensures EdgeOk(t, g', s, f) {
      if f in Out(g.succ, s) {
        EdgeOkStays(t, g, g', s, f);
      }
    }
    forall i | 2 <= i < |g'.nodes| ensures HasParent(g', i) {
      ParentStays(g, g', i);
    }
  }

  lemma NewEdgesAre(t: Task, g: Growth, src: Node, e: Edge)
    requires src.address < |g.depth|
    ensures var g' := StepNew(t, g, src, e);
            && Extends(g.succ, g'.succ) && e in Out(g'.succ, src)
            && (IsBetter(e.node.value, t.goal, t.profiles) ==> GoalLink(t) in Out(g'.succ, e.node))
            && g.nodes <= g'.nodes && g.depth <= g'.depth && g'.expanded == g.expanded
            && forall s, f :: f in Out(g'.succ, s) ==>
                 || f in Out(g.succ, s) || (s == src && f == e)
                 || (s == e.node && f == GoalLink(t) && IsBetter(e.node.value, t.goal, t.profiles))
  {
    hide IsBetter;
    WithEdgeExtends(g.succ, src, e);
    WithEdgeExtends(WithEdge(g.succ, src, e), e.node, GoalLink(t));
  }

  lemma NewEdgeOk(t: Task, g: Growth, src: Node, e: Edge)
    requires Shape(t, g) && Hears(t, g, src, e) && e.node.address == |g.nodes|
    ensures EdgeOk(t, StepNew(t, g, src, e), src, e)
    ensures IsBetter(e.node.value, t.goal, t.profiles) ==> EdgeOk(t, StepNew(t, g, src, e), e.node, GoalLink(t))
  {
    hide IsBetter, Proposed;
  }

  lemma NewKeepsEdges(t: Task, g: Growth, src: Node, e: Edge)
    requires Grown(t, g) && Hears(t, g, src, e) && e.node.address == |g.nodes|
    ensures EdgesOk(t, StepNew(t, g, src, e)) && Extends(g.succ, StepNew(t, g, src, e).succ)
    ensures e in Out(StepNew(t, g, src, e).succ, src)
    ensures IsBetter(e.node.value, t.goal, t.profiles) ==> GoalLink(t) in Out(StepNew(t, g, src, e).succ, e.node)
  {
    hide Proposed, IsBetter, NoTwins, AllHaveParents, Layered, AllLinked;
    var g' := StepNew(t, g, src, e);
    NewEdgesAre(t, g, src, e);
    NewEdgeOk(t, g, src, e);
    hide StepNew, EdgeOk;
    forall s, f | f in Out(g'.succ, s) ensures EdgeOk(t, g', s, f) {
      if f in Out(g.succ, s) {
        EdgeOkStays(t, g, g', s, f);
      }
    }
  }

  lemma NewKeepsGrown(t: Task, g: Growth, src: Node, e: Edge)
    requires Grown(t, g) && Hears(t, g, src, e)
    requires e.node.address == |g.nodes| && forall n :: n in g.nodes ==> n.value != e.node.value
    ensures Grown(t, StepNew(t, g, src, e)) && Extends(g.succ, StepNew(t, g, src, e).succ)
  {
    hide Proposed, IsBetter;
    var g' := StepNew(t, g, src, e);
    NewKeepsEdges(t, g, src, e);
    assert forall i :: 0 <= i < |g.nodes| ==> g.nodes[i] in g.nodes;
    forall i | 2 <= i < |g'.nodes| ensures HasParent(g', i) {
      if i < |g.nodes| {
        ParentStays(g, g', i);
      } else {
        assert g'.nodes[src.address] == src;
      }
    }
    forall n | n in g'.nodes && MeetsGoal(t, n) ensures GoalLink(t) in Out(g'.succ, n) {
      if n != e.node {
        assert n in g.nodes;
      }
    }
  }

  lemma HeardStays(t: Task, succ: Successors, succ': Successors, src: Node, answers: seq<Answer>, j: nat, i: nat)
    requires HeardUpTo(t, succ, src, answers, j, i) && Extends(succ, succ')
    ensures HeardUpTo(t, succ', src, answers, j, i)
  {
    forall b: nat, c: nat | b < |answers| && c < Considered(t.cfg, answers[b]) && (b < j || (b == j && c < i))
      ensures HasEdgeFor(succ', src, answers[b], c)
    {
      assert HasEdgeFor(succ, src, answers[b], c);
      var a := answers[b];
      var e :| e in Out(succ, src) && e.node.value == a.candidates[c] && e.utility == a.utils[c]
        && e.action == a.actions[c];
      assert e in Out(succ', src);
    }
  }

  lemma AllHeardStays(t: Task, g: Growth, g': Growth, x: nat)
    requires x < |g.nodes| && Heard(t, g, x) && g.nodes <= g'.nodes && Extends(g.succ, g'.succ)
    ensures Heard(t, g', x)
  {
    forall r: nat | r < x ensures HeardOne(t, g', r) {
      assert HeardOne(t, g, r);
      var n := g.nodes[Address(r)];
      HeardStays(t, g.succ, g'.succ, n, Ask(t, r, n.value), |Ask(t, r, n.value)|, 0);
    }
  }

  lemma HeardOneMore(t: Task, succ: Successors, src: Node, answers: seq<Answer>, j: nat, i: nat, e: Edge)
    requires HeardUpTo(t, succ, src, answers, j, i) && j < |answers| && i < Considered(t.cfg, answers[j])
    requires WellFormed(t.cfg, answers[j]) && e in Out(succ, src)
    requires var a := answers[j]; e.node.value == a.candidates[i] && e.utility == a.utils[i] && e.action == a.actions[i]
    ensures HeardUpTo(t, succ, src, answers, j, i + 1)
  {
    assert HasEdgeFor(succ, src, answers[j], i);
  }

  /** Everything the breadth-first phase keeps while it works through answer j for the node expanded last. */
  ghost predicate Listening(t: Task, g: Growth, current: Node, j: nat, i: nat)
  {
    && Grown(t, g) && g.expanded > 0 && Known(g.nodes, current) && current.address == Address(g.expanded - 1)
    && Heard(t, g, g.expanded - 1)
    && HeardUpTo(t, g.succ, current, Ask(t, g.expanded - 1, current.value), j, i)
  }

  ghost function Taken(t: Task, g: Growth, src: Node, e: Edge, found: bool): Growth
    requires src.address < |g.depth|
  {
    if found then StepKnown(g, src, e) else StepNew(t, g, src, e)
  }

  /** The states asked about so far, round by round. */
  function Transcript(g: Growth): seq<State>
    requires g.expanded < |g.nodes|
  {
    seq(g.expanded, r requires 0 <= r < g.expanded => g.nodes[Address(r)].value)
  }

  lemma TranscriptFollows(t: Task, g: Growth, r: nat)
    requires Grown(t, g) && r < g.expanded
    ensures MayFollow(t, Transcript(g), r)
  {
    hide IsBetter, Askable, Offered, Layered, AllLinked;
    var asked := Transcript(g);
    if r > 0 {
      assert HasParent(g, Address(r));
      var j: nat, e :| j < Address(r) && j != 1 && e in Out(g.succ, g.nodes[j]) && e.node == g.nodes[Address(r)]
                       && g.depth[Address(r)] == g.depth[j] + 1;
      assert EdgeOk(t, g, g.nodes[j], e);
      var q := Rank(g.nodes[j]);
      assert q < r && asked[q] == g.nodes[j].value && Offered(t, q, asked[q], e);
      forall k | 0 <= k < r ensures asked[k] != asked[r] {
        assert g.nodes[Address(k)].value != g.nodes[Address(r)].value;
      }
      assert g.nodes[1].value != g.nodes[Address(r)].value;
    }
  }

  /** The planner asks about start, and then about states it was told of, never about one twice or about the goal. */
  lemma TranscriptHolds(t: Task, g: Growth)
    requires Grown(t, g)
    ensures g.expanded < |g.nodes| && IsTranscript(t, Transcript(g))
  {
    hide Grown, MayFollow;
    GrownShape(t, g);
    forall r: nat | r < |Transcript(g)| ensures MayFollow(t, Transcript(g), r) {
      TranscriptFollows(t, g, r);
    }
  }

  lemma AskedIsAskable(t: Task, g: Growth, current: Node)
    requires Grown(t, g) && g.expanded > 0 && Known(g.nodes, current) && current.address == Address(g.expanded - 1)
    ensures Askable(t, g.expanded - 1, current.value)
  {
    hide Grown, IsTranscript;
    TranscriptHolds(t, g);
    assert Transcript(g)[g.expanded - 1] == current.value;
  }

  lemma TakeCandidate(t: Task, g: Growth, current: Node, j: nat, i: nat, node: Node, found: bool)
    requires AllWellFormed(t) && Listening(t, g, current, j, i)
    requires var answers := Ask(t, g.expanded - 1, current.value);
             j < |answers| && i < Considered(t.cfg, answers[j]) && node.value == answers[j].candidates[i]
    requires if found then Known(g.nodes, node) else node.address == |g.nodes| && forall n :: n in g.nodes ==>
      n.value != node.value
    ensures var a := Ask(t, g.expanded - 1, current.value)[j];
            i < |a.utils| && i < |a.actions|
            && Listening(t, Taken(t, g, current, Edge(node, a.utils[i], a.actions[i]), found), current, j, i + 1)
  {
    hide Grown, IsBetter, Askable, Extends, HasEdgeFor;
    var x := g.expanded - 1;
    var answers := Ask(t, x, current.value);
    var a := answers[j];
    GrownShape(t, g);
    AskedIsAskable(t, g, current);
    assert WellFormed(t.cfg, a);
    var e := Edge(node, a.utils[i], a.actions[i]);
    assert OfferedAt(t, x, j, i, current.value, e);
    var g' := Taken(t, g, current, e, found);
    if found {
      KnownKeepsGrown(t, g, current, e);
      WithEdgeExtends(g.succ, current, e);
    } else {
      NewKeepsGrown(t, g, current, e);
      NewHasEdge(t, g, current, e);
    }
    AllHeardStays(t, g, g', x);
    HeardStays(t, g.succ, g'.succ, current, answers, j, i);
    HeardOneMore(t, g'.succ, current, answers, j, i, e);
  }

  lemma GrownShape(t: Task, g: Growth)
    requires Grown(t, g)
    ensures Shape(t, g)
  {
  }

  lemma NewHasEdge(t: Task, g: Growth, src: Node, e: Edge)
    requires src.address < |g.depth|
    ensures e in Out(StepNew(t, g, src, e).succ, src)
  {
    hide IsBetter;
    WithEdgeExtends(g.succ, src, e);
    WithEdgeExtends(WithEdge(g.succ, src, e), e.node, GoalLink(t));
  }

  // ---------------------------------------------------------------- the breadth-first phase

  /** Looks for a node with this very state, newest first; failing that, makes a node at an address of its own. */
  method GetNodeForState(nodes: seq<Node>, state: State) returns (node: Node, found: bool)
    ensures found ==> exists i :: 0 <= i < |nodes| && nodes[i] == node && forall k :: i < k < |nodes| ==>
      nodes[k].value != state
    ensures node.value == state
    ensures !found ==> node.address == |nodes| && forall n :: n in nodes ==> n.value != state
  {
    var i := |nodes| - 1;
    while i >= 0
      invariant -1 <= i < |nodes|
      invariant forall k :: i < k < |nodes| ==> nodes[k].value != state
    {
      if nodes[i].value == state {
        return nodes[i], true;
      }
      i := i - 1;
    }
    return Node(|nodes|, state), false;
  }

  ghost predicate GoalWasMet(t: Task, nodes: seq<Node>)
  {
    exists n :: n in nodes && MeetsGoal(t, n)
  }

  /** The queue holds the discovered nodes that were not expanded, in the order of their discovery. */
  ghost predicate QueueOf(g: Growth, queue: seq<Node>)
  {
    && g.expanded < |g.nodes|
    && if g.expanded == 0 then |g.nodes| == 2 && queue == g.nodes[..1] else queue == g.nodes[g.expanded + 1..]
  }

  lemma QueueKeeps(t: Task, g: Growth, src: Node, e: Edge, found: bool, queue: seq<Node>)
    requires QueueOf(g, queue) && g.expanded > 0 && src.address < |g.depth|
    ensures QueueOf(Taken(t, g, src, e, found), if found then queue else queue + [e.node])
  {
    hide IsBetter;
  }

  lemma QueueLength(g: Growth, queue: seq<Node>)
    requires QueueOf(g, queue)
    ensures g.expanded < |g.nodes| && |queue| == |g.nodes| - g.expanded - 1
  {
  }

  /** What the planner does with the j-th answer it gets for `current`. */
  method Absorb(t: Task, sg: StateGraph, current: Node, waiting: seq<Node>, seen: bool, j: nat, a: Answer,
                ghost before: Growth)
    returns (queue: seq<Node>, hasGoal: bool, ghost g: Growth)
    requires AllWellFormed(t) && sg.nodes == before.nodes && sg.successors == before.succ
    requires Listening(t, before, current, j, 0) && QueueOf(before, waiting) && seen == GoalWasMet(t, before.nodes)
    requires j < |Ask(t, before.expanded - 1, current.value)| && a == Ask(t, before.expanded - 1, current.value)[j]
    modifies sg
    ensures sg.nodes == g.nodes && sg.successors == g.succ && g.expanded == before.expanded
    ensures Listening(t, g, current, j + 1, 0) && QueueOf(g, queue) && hasGoal == GoalWasMet(t, g.nodes)
    ensures |g.nodes| <= |before.nodes| + Considered(t.cfg, a)
  {
    hide Listening, GoalWasMet, IsBetter, AllWellFormed, Askable, QueueOf, Ask;
    g, queue, hasGoal := before, waiting, seen;
    var i := 0;
    while i < |a.candidates| && i < t.cfg.maxCandidates
      invariant 0 <= i <= Considered(t.cfg, a)
      invariant sg.nodes == g.nodes && sg.successors == g.succ && g.expanded == before.expanded
      invariant Listening(t, g, current, j, i) && QueueOf(g, queue) && hasGoal == GoalWasMet(t, g.nodes)
      invariant |g.nodes| <= |before.nodes| + i
    {
      var state := a.candidates[i];
      var stateNode, found := GetNodeForState(sg.nodes, state);
      ListeningShape(t, g, current, j, i);
      TakeCandidate(t, g, current, j, i, stateNode, found);
      ghost var e, earlier := Edge(stateNode, a.utils[i], a.actions[i]), queue;
      if !found {
        sg.AddNode(stateNode);
        queue := queue + [stateNode];
      }
      sg.AddEdge(current, stateNode, a.utils[i], a.actions[i]);
      if IsBetter(state, t.goal, t.profiles) && !found {
        sg.AddEdge(stateNode, EndNode(t), 0.0, DONE);
        hasGoal := true;
      }
      QueueKeeps(t, g, current, e, found, earlier);
      if !found {
        OneMoreNode(t, g.nodes, stateNode);
      }
      g := Taken(t, g, current, e, found);
      i := i + 1;
    }
    AnswerDone(t, g, current, j, a);
  }

  lemma ListeningShape(t: Task, g: Growth, current: Node, j: nat, i: nat)
    requires Listening(t, g, current, j, i)
    ensures Shape(t, g) && Known(g.nodes, current) && g.expanded > 0 && current.address == Address(g.expanded - 1)
  {
  }

  lemma OneMoreNode(t: Task, nodes: seq<Node>, n: Node)
    requires n.address == |nodes| >= 2
    ensures GoalWasMet(t, nodes + [n]) <==> GoalWasMet(t, nodes) || IsBetter(n.value, t.goal, t.profiles)
  {
    hide IsBetter;
    assert n in nodes + [n];
    assert forall m :: m in nodes + [n] <==> m in nodes || m == n;
  }

  lemma AnswerDone(t: Task, g: Growth, current: Node, j: nat, a: Answer)
    requires Listening(t, g, current, j, Considered(t.cfg, a))
    requires j < |Ask(t, g.expanded - 1, current.value)| && a == Ask(t, g.expanded - 1, current.value)[j]
    ensures Listening(t, g, current, j + 1, 0)
  {
    hide Grown, IsBetter, HasEdgeFor;
  }

  lemma BeginRound(t: Task, g: Growth, queue: seq<Node>)
    requires Grown(t, g) && Heard(t, g, g.expanded) && QueueOf(g, queue) && queue != []
    ensures var g' := g.(expanded := g.expanded + 1);
            Listening(t, g', queue[0], 0, 0) && QueueOf(g', queue[1..])
  {
    hide IsBetter, Proposed;
    var g' := g.(expanded := g.expanded + 1);
    forall src, e | e in Out(g'.succ, src) ensures EdgeOk(t, g', src, e) {
      assert EdgeOk(t, g, src, e);
    }
    forall i | 2 <= i < |g'.nodes| ensures HasParent(g', i) {
      assert HasParent(g, i);
      ParentStays(g, g', i);
    }
    forall r: nat | r < g.expanded ensures HeardOne(t, g', r) {
      assert HeardOne(t, g, r);
    }
    QueueShrinks(g, queue);
  }

  lemma QueueShrinks(g: Growth, queue: seq<Node>)
    requires QueueOf(g, queue) && queue != []
    ensures QueueOf(g.(expanded := g.expanded + 1), queue[1..])
  {
    assert queue[1..] == g.nodes[g.expanded + 2..];
  }

  lemma EndRound(t: Task, g: Growth, current: Node)
    requires g.expanded > 0 && Listening(t, g, current, |Ask(t, g.expanded - 1, current.value)|, 0)
    ensures Grown(t, g) && Heard(t, g, g.expanded)
  {
    hide Grown, HeardUpTo;
    GrownShape(t, g);
    forall r: nat | r < g.expanded ensures HeardOne(t, g, r) {
    }
  }

  ghost predicate AtMost(t: Task, a: nat)
  {
    forall round: nat, s :: |Ask(t, round, s)| <= a
  }

  /** The most nodes the breadth-first phase can leave, with at most a actuators. */
  function SizeBound(cfg: Config, a: nat): int
  {
    var candidates := if cfg.maxCandidates < 0 then 0 else cfg.maxCandidates;
    if cfg.maxStates - 1 + a * candidates < 2 then 2 else cfg.maxStates - 1 + a * candidates
  }

  lemma RoundFits(t: Task, start: nat, now: nat, j: nat, round: nat, s: State)
    requires start < t.cfg.maxStates && j == |Ask(t, round, s)|
    requires now <= start + j * (if t.cfg.maxCandidates < 0 then 0 else t.cfg.maxCandidates)
    ensures forall a: nat :: AtMost(t, a) ==> now <= SizeBound(t.cfg, a)
  {
    var candidates := if t.cfg.maxCandidates < 0 then 0 else t.cfg.maxCandidates;
    forall a: nat | AtMost(t, a) ensures now <= SizeBound(t.cfg, a) {
      assert j <= a;
      assert j * candidates <= a * candidates;
    }
  }

  lemma InitialGrowth(t: Task)
    ensures var g := Growth([StartNode(t), EndNode(t)], map[], [0, 0], 0);
            Grown(t, g) && Heard(t, g, 0) && !GoalWasMet(t, g.nodes) && QueueOf(g, [StartNode(t)])
  {
  }

  /** The work-list loop: expands states breadth-first until the queue runs dry or the graph is large enough. */
  method BreadthFirst(t: Task) returns (sg: StateGraph, hasGoal: bool, ghost g: Growth)
    requires AllWellFormed(t)
    ensures fresh(sg) && sg.nodes == g.nodes && sg.successors == g.succ
    ensures Grown(t, g) && Heard(t, g, g.expanded) && hasGoal == GoalWasMet(t, g.nodes)
    ensures g.expanded == 0 || g.expanded <= t.cfg.maxStates - 2
    ensures g.expanded + 1 == |g.nodes| || |g.nodes| >= t.cfg.maxStates
    ensures forall a: nat :: AtMost(t, a) ==> |g.nodes| <= SizeBound(t.cfg, a)
  {
    hide Grown, Heard, Listening, GoalWasMet, AtMost, AllWellFormed, QueueOf;
    sg := new StateGraph();
    sg.AddNode(StartNode(t));
    sg.AddNode(EndNode(t));
    var queue := [StartNode(t)];
    hasGoal := false;
    g := Growth([StartNode(t), EndNode(t)], map[], [0, 0], 0);
    InitialGrowth(t);
    QueueLength(g, queue);
    var round := 0;
    while |queue| > 0 && |sg.nodes| < t.cfg.maxStates
      invariant fresh(sg) && sg.nodes == g.nodes && sg.successors == g.succ
      invariant round == g.expanded < |g.nodes| && QueueOf(g, queue) && |queue| == |g.nodes| - g.expanded - 1
      invariant Grown(t, g) && Heard(t, g, g.expanded) && hasGoal == GoalWasMet(t, g.nodes)
      invariant g.expanded == 0 || g.expanded <= t.cfg.maxStates - 2
      invariant forall a: nat :: AtMost(t, a) ==> |g.nodes| <= SizeBound(t.cfg, a)
      decreases t.cfg.maxStates - g.expanded
    {
      var current := queue[0];
      BeginRound(t, g, queue);
      queue := queue[1..];
      ghost var atStart := |g.nodes|;
      g := g.(expanded := round + 1);
      var answers := Ask(t, round, current.value);
      var j := 0;
      while j < |answers|
        invariant j <= |answers| && fresh(sg) && sg.nodes == g.nodes && sg.successors == g.succ
        invariant g.expanded == round + 1 && QueueOf(g, queue)
        invariant Listening(t, g, current, j, 0) && hasGoal == GoalWasMet(t, g.nodes)
        invariant |g.nodes| <= atStart + j * (if t.cfg.maxCandidates < 0 then 0 else t.cfg.maxCandidates)
      {
        queue, hasGoal, g := Absorb(t, sg, current, queue, hasGoal, j, answers[j], g);
        j := j + 1;
      }
      EndRound(t, g, current);
      QueueLength(g, queue);
      RoundFits(t, atStart, |g.nodes|, j, round, current.value);
      round := round + 1;
    }
  }

  // ---------------------------------------------------------------- the graph, edge by edge

  /** Every edge is the link of a goal-meeting state, or what an actuator answered among its first maxCandidates. */
  lemma EdgesAreAnswers(t: Task, g: Growth, src: Node, e: Edge)
    requires Grown(t, g) && e in Out(g.succ, src)
    ensures var round := if src.address == 0 then 0 else src.address - 1;
            || (src.address >= 2 && IsBetter(src.value, t.goal, t.profiles)
                && e == Edge(Node(1, t.goal), 0.0, Action("done", NoProperties)))
            || (round < g.expanded
                && exists j: nat, i: nat ::
                     var answers := t.actuators(round, src.value, t.goal, t.profiles);
                     && j < |answers| && i < |answers[j].candidates| && i < t.cfg.maxCandidates
                     && i < |answers[j].utils| && i < |answers[j].actions| && e.node.value == answers[j].candidates[i]
                     && e.utility == answers[j].utils[i] && e.action == answers[j].actions[i])
  {
    hide IsBetter, NoTwins, AllHaveParents, Layered, AllLinked, Askable;
    assert EdgeOk(t, g, src, e);
    if IsStep(t, src, e) {
      var j: nat, i: nat :| OfferedAt(t, Rank(src), j, i, src.value, e);
    }
  }

  /** And all of that is there: for each expanded state, in its round, the first maxCandidates of every answer. */
  lemma AnswersAreEdges(t: Task, g: Growth, round: nat, j: nat, i: nat) returns (e: Edge)
    requires Grown(t, g) && Heard(t, g, g.expanded) && round < g.expanded
    requires var n := g.nodes[if round == 0 then 0 else round + 1];
             var answers := t.actuators(round, n.value, t.goal, t.profiles);
             j < |answers| && i < |answers[j].candidates| && i < t.cfg.maxCandidates
    ensures var n := g.nodes[if round == 0 then 0 else round + 1];
            var a := t.actuators(round, n.value, t.goal, t.profiles)[j];
            && i < |a.utils| && i < |a.actions| && e in Out(g.succ, n)
            && e.node.value == a.candidates[i] && e.utility == a.utils[i] && e.action == a.actions[i]
  {
    hide IsBetter, NoTwins, AllHaveParents, Layered, AllLinked, EdgesOk;
    assert HeardOne(t, g, round);
    var n := g.nodes[Address(round)];
    var a := Ask(t, round, n.value)[j];
    assert HasEdgeFor(g.succ, n, a, i);
    e :| e in Out(g.succ, n) && e.node.value == a.candidates[i] && e.utility == a.utils[i] && e.action == a.actions[i];
  }

  /** The flag of the breadth-first phase: some discovered state meets the goal. */
  lemma MetIsDiscovered(t: Task, g: Growth)
    requires Grown(t, g)
    ensures GoalWasMet(t, g.nodes) <==> exists i :: 2 <= i < |g.nodes| && IsBetter(g.nodes[i].value, t.goal, t.profiles)
  {
    hide IsBetter, NoTwins, EdgesOk, AllHaveParents, Layered, AllLinked;
    forall n | n in g.nodes && MeetsGoal(t, n)
      ensures exists i :: 2 <= i < |g.nodes| && IsBetter(g.nodes[i].value, t.goal, t.profiles)
    {
      assert g.nodes[n.address] == n;
    }
    forall i | 2 <= i < |g.nodes| && IsBetter(g.nodes[i].value, t.goal, t.profiles) ensures GoalWasMet(t, g.nodes) {
      assert g.nodes[i] in g.nodes && MeetsGoal(t, g.nodes[i]);
    }
  }

  /** Every discovered state that meets the goal leads to it at no cost. */
  lemma MetIsLinked(t: Task, g: Growth, i: nat)
    requires Grown(t, g) && 2 <= i < |g.nodes| && IsBetter(g.nodes[i].value, t.goal, t.profiles)
    ensures Edge(Node(1, t.goal), 0.0, Action("done", NoProperties)) in Out(g.succ, g.nodes[i])
  {
    hide IsBetter, NoTwins, EdgesOk, AllHaveParents, Layered;
    assert MeetsGoal(t, g.nodes[i]);
  }

  // ---------------------------------------------------------------- distances in the finished breadth-first graph

  /** Every discovered state can be reached from start, in as many actuator actions as its depth says. */
  lemma {:induction false} DiscoveredRoute(t: Task, g: Growth, i: nat) returns (w: Walk)
    requires Grown(t, g) && i < |g.nodes| && i != 1
    ensures IsRoute(g.succ, StartNode(t), w, g.nodes[i]) && Length(w) == g.depth[i]
    decreases i
  {
    hide NoTwins, EdgesOk, AllLinked;
    if i == 0 {
      w := Stay;
    } else {
      assert HasParent(g, i);
      var j: nat, e :| j < i && j != 1 && e in Out(g.succ, g.nodes[j]) && e.node == g.nodes[i]
        && g.depth[i] == g.depth[j] + 1;
      var v := DiscoveredRoute(t, g, j);
      w := Then(v, e);
    }
  }

  /** No walk reaches a state in fewer actions: breadth-first discovery depths are distances. */
  lemma {:induction false} DepthIsLeast(t: Task, g: Growth, w: Walk)
    requires Grown(t, g) && IsWalk(g.succ, StartNode(t), w) && End(StartNode(t), w).address != 1
    ensures Known(g.nodes, End(StartNode(t), w)) && g.depth[End(StartNode(t), w).address] <= Length(w)
  {
    hide NoTwins, AllHaveParents, AllLinked, IsBetter, Proposed;
    if w.Then? {
      var src := End(StartNode(t), w.before);
      assert EdgeOk(t, g, src, w.edge);
      DepthIsLeast(t, g, w.before);
    }
  }

  /** Some actuator proposed, for an expanded state, a state structurally equal to the goal. */
  ghost predicate GoalOffered(t: Task, g: Growth)
  {
    exists src, e :: e in Out(g.succ, src) && e.node == EndNode(t) && IsStep(t, src, e)
  }

  /** So it is enough that no actuator ever proposes the goal state itself. */
  lemma NeverOffered(t: Task, g: Growth)
    requires forall round: nat, s, e :: Proposed(t, round, s, e) ==> e.node.value != t.goal
    ensures !GoalOffered(t, g)
  {
  }

  /** The graph of the breadth-first phase has a way to the goal exactly if a discovered state meets it or equals it. */
  lemma ReachableIffMet(t: Task, g: Growth)
    requires Grown(t, g)
    ensures Reachable(g.succ, StartNode(t), EndNode(t)) <==> GoalWasMet(t, g.nodes) || GoalOffered(t, g)
  {
    hide IsBetter, Proposed, NoTwins, AllHaveParents, Layered;
    var s := StartNode(t);
    if GoalWasMet(t, g.nodes) {
      var n :| n in g.nodes && MeetsGoal(t, n);
      var w := DiscoveredRoute(t, g, n.address);
      assert IsRoute(g.succ, s, Then(w, GoalLink(t)), EndNode(t));
    }
    if GoalOffered(t, g) {
      var src, e :| e in Out(g.succ, src) && e.node == EndNode(t) && IsStep(t, src, e);
      assert EdgeOk(t, g, src, e);
      var w := DiscoveredRoute(t, g, src.address);
      assert IsRoute(g.succ, s, Then(w, e), EndNode(t));
    }
    if w :| IsRoute(g.succ, s, w, EndNode(t)) {
      var src := End(s, w.before);
      assert EdgeOk(t, g, src, w.edge);
      if IsGoalLink(t, src, w.edge) {
        assert g.nodes[src.address] == src && MeetsGoal(t, src);
      }
    }
  }

  /** `route` leads to the goal over as few edges as any. */
  ghost predicate Shortest(t: Task, succ: Successors, route: Walk)
  {
    && IsRoute(succ, StartNode(t), route, EndNode(t))
    && forall w :: IsRoute(succ, StartNode(t), w, EndNode(t)) ==> Length(route) <= Length(w)
  }

  /**
   * If no proposed state equals the goal, a shortest way ends at a goal-meeting state of least discovery depth, which
   * is one less than its length: the fewest actuator actions that bring a goal-meeting state about.
   */
  lemma ShortestEndsAtNearest(t: Task, g: Growth, route: Walk)
    requires Grown(t, g) && !GoalOffered(t, g) && Shortest(t, g.succ, route)
    ensures route.Then?
    ensures var last := End(StartNode(t), route.before);
            Known(g.nodes, last) && MeetsGoal(t, last) && g.depth[last.address] == Length(route) - 1
    ensures forall n :: n in g.nodes && MeetsGoal(t, n) ==>
        n.address < |g.depth| && Length(route) - 1 <= g.depth[n.address]
  {
    hide IsBetter, Proposed;
    var s := StartNode(t);
    var last := End(s, route.before);
    assert EdgeOk(t, g, last, route.edge);
    DepthIsLeast(t, g, route.before);
    forall n | n in g.nodes && MeetsGoal(t, n)
      ensures n.address < |g.depth| && Length(route) - 1 <= g.depth[n.address]
    {
      var w := DiscoveredRoute(t, g, n.address);
      assert IsRoute(g.succ, s, Then(w, GoalLink(t)), EndNode(t));
    }
  }
}
