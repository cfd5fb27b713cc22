/**
 * Replica bookkeeping along plans: Perform in pkg/planner/actuators/scaling/scale_out.go against what NextState
 * promised.
 */
module Replicas {
  import opened Folds
  import opened Types
  import opened Kpi
  import opened StateGraphs
  import opened StateGraphBuilder
  import opened Planner
  import opened ScaleOut
  import opened RmPod

  /** A missing factor reads as 0. */
  function FactorOf(a: Action): int
  {
    if a.properties.Integers? && "factor" in a.properties.ints then a.properties.ints["factor"] else 0
  }

  function Change(a: Action): int
  {
    if a.name == RM_POD_ACTION_NAME then -1 else if a.name == SCALE_OUT_ACTION_NAME then FactorOf(a) else 0
  }

  /** By how much Perform changes the number of replicas. */
  function NetFactor(plan: seq<Action>): int
  {
    if plan == [] then 0 else NetFactor(plan[..|plan| - 1]) + Change(plan[|plan| - 1])
  }

  /** The loop of Perform; a scale-out action must carry integer properties. */
  method ComputeFactor(plan: seq<Action>) returns (factor: int)
    requires forall a :: a in plan && a.name == SCALE_OUT_ACTION_NAME ==> a.properties.Integers?
    ensures factor == NetFactor(plan)
  {
    factor := 0;
    var i := 0;
    while i < |plan|
      invariant 0 <= i <= |plan| && factor == NetFactor(plan[..i])
    {
      var item := plan[i];
      assert plan[..i + 1][..i] == plan[..i];
      if item.name == RM_POD_ACTION_NAME {
        factor := factor - 1;
      } else if item.name == SCALE_OUT_ACTION_NAME {
        var ints := item.properties.ints;
        factor := factor + if "factor" in ints then ints["factor"] else 0;
      }
      i := i + 1;
    }
    assert plan[..i] == plan;
  }

  const CPU_ACTION_NAME := "scaleCPU"

  /** A proactive change of CPU: it is planned as if it brought a pod, of which Perform knows nothing. */
  predicate IsUnbooked(a: Action)
  {
    a.name == CPU_ACTION_NAME && a.properties.Integers? && "proactive" in a.properties.ints
  }

  /** How many pods the plan counts on that Perform does not bring. */
  function Unbooked(plan: seq<Action>): nat
  {
    if plan == [] then 0 else Unbooked(plan[..|plan| - 1]) + if IsUnbooked(plan[|plan| - 1]) then 1 else 0
  }

  lemma {:induction false} UnbookedIff(plan: seq<Action>)
    ensures Unbooked(plan) == 0 <==> forall a :: a in plan ==> !IsUnbooked(a)
  {
    if plan != [] {
      UnbookedIff(plan[..|plan| - 1]);
      assert plan == plan[..|plan| - 1] + [plan[|plan| - 1]];
    }
  }

  /** The action accounts for the difference in the number of pods, but for a pod it brings unbooked. */
  ghost predicate Books(s: State, e: Edge)
  {
    |e.node.value.currentPods| == |s.currentPods| + Change(e.action) + if IsUnbooked(e.action) then 1 else 0
  }

  /** Whatever the actuators propose accounts for itself. */
  ghost predicate KeepsBooks(t: Task)
  {
    forall round: nat, s, e :: Proposed(t, round, s, e) ==> Books(s, e)
  }

  /** Any plan that replays changes the replicas by what the states passed differ in pods, less the unbooked ones. */
  lemma {:induction false} ReplicasAreConserved(t: Task, asked: seq<State>, plan: seq<Action>, states: seq<State>)
    requires KeepsBooks(t) && Replays(t, asked, plan, states)
    ensures NetFactor(plan) + Unbooked(plan) == |states[|plan|].currentPods| - |t.start.currentPods|
  {
    hide Proposed;
    if plan != [] {
      var n := |plan| - 1;
      var shorter, before := plan[..n], states[..n + 1];
      assert Replays(t, asked, shorter, before) by {
        forall i | 0 <= i < n ensures Leads(t, asked, before[i], shorter[i], before[i + 1]) {
          assert Leads(t, asked, states[i], plan[i], states[i + 1]);
        }
      }
      ReplicasAreConserved(t, asked, shorter, before);
      assert Leads(t, asked, states[n], plan[n], states[n + 1]);
    }
  }

  // ---------------------------------------------------------------- what the scaling actuators contribute

  /** Candidate i of the answer, with its price and action. */
  function CandidateEdge(a: Answer, i: nat): Edge
    requires i < |a.candidates| && i < |a.utils| && i < |a.actions|
  {
    Edge(Node(0, a.candidates[i]), a.utils[i], a.actions[i])
  }

  /** Perform expects integers with a scale-out action. */
  ghost predicate Typed(a: Action)
  {
    a.name == SCALE_OUT_ACTION_NAME ==> a.properties.Integers?
  }

  /**
   * The answer is complete, accounts for itself, is not priced below zero, and keeps off the planner's action names.
   */
  ghost predicate Orderly(s: State, a: Answer)
  {
    && |a.candidates| == |a.utils| == |a.actions|
    && forall i :: 0 <= i < |a.candidates| ==> OrderlyAt(s, a, i)
  }

  ghost predicate OrderlyAt(s: State, a: Answer, i: nat)
    requires i < |a.candidates| == |a.utils| == |a.actions|
  {
    Books(s, CandidateEdge(a, i)) && a.utils[i] >= 0.0 && !Reserved(a.actions[i]) && Typed(a.actions[i])
  }

  lemma ScaleOutIsOrderly(c: Setting, a: Answer, r: Option<Answer>, ms: seq<nat>, m: nat)
    requires Sound(c) && c.goal.intent.priority > 0.0 && Answered(c, a, r, ms, m)
    ensures Orderly(c.state, a)
  {
    hide Models, PodsAfter, AllCovered, SomeSatisfied, BetterAfter, AverageAvailability, ScaleOutUtility, StateAfter;
    if r.Some? {
      forall i | 0 <= i < |a.candidates| ensures OrderlyAt(c.state, a, i) {
        assert ListsAt(c, a, ms, i);
        assert ms[i] in ms;
        var pods := |PodsAfter(c, ms[i])|;
        UtilityGrows(c, pods, pods + 1);
        StateAfterPods(c, ms[i]);
      }
    }
  }

  lemma RmPodPrice(c: Setting, name: string)
    requires c.goal.intent.priority >= 0.0 && Fractions(c.state.currentPods)
    ensures RmPodUtility(c, name) >= 0.0
  {
    hide CountsAvailability, PodSetAvailability;
    var pods := c.state.currentPods - {name};
    SetIsFraction(pods);
    ProductSign(PodSetAvailability(pods), c.goal.intent.priority,
                Times(PodSetAvailability(pods), c.goal.intent.priority));
    ProductSign(1.0, c.goal.intent.priority, Times(1.0, c.goal.intent.priority));
  }

  lemma RmPodIsOrderly(c: Setting, minPods: int, a: Answer, names: seq<string>)
    requires Models(c) && c.goal.intent.priority >= 0.0 && Fractions(c.state.currentPods)
      && Offers(c, minPods, a, names)
    ensures Orderly(c.state, a)
  {
    hide Models, Modelled, Contains, Forecast, RmPodUtility;
    forall i | 0 <= i < |a.candidates| ensures OrderlyAt(c.state, a, i) {
      assert RemovesAt(c, a, names, i);
      assert names[i] in names;
      OneFewer(c.state.currentPods, names[i]);
      RmPodPrice(c, names[i]);
    }
  }

  // ---------------------------------------------------------------- what the scaling actuators keep

  /** There are pods, and their availabilities are fractions. */
  ghost predicate Healthy(s: State)
  {
    s.currentPods != map[] && Fractions(s.currentPods)
  }

  ghost predicate AllHealthy(a: Answer)
  {
    forall i :: 0 <= i < |a.candidates| ==> Healthy(a.candidates[i])
  }

  lemma ProactiveIsHealthy(c: Setting)
    requires Healthy(c.state)
    ensures Healthy(ProactiveState(c))
  {
    hide AverageAvailability;
    AverageIsFraction(c.state.currentPods);
    assert PROACTIVE_NAME in ProactiveState(c).currentPods;
  }

  /** Scaling out turns healthy states into healthy ones, whatever names are reused. */
  lemma ScaleOutKeepsHealth(c: Setting, a: Answer)
    requires Sound(c) && Healthy(c.state) && c.goal.intent.priority > 0.0 && IsReply(c, a)
    ensures Orderly(c.state, a) && AllHealthy(a)
  {
    hide IsExp, Divisible, PodsAfter, Collected, Tried, AllCovered, Fractions, ProactiveState, IsBetter, Orderly;
    if a == NOTHING {
      NothingIsOrderly(c.state);
    } else {
      var k, r, ms, m :| IsThroughput(c.state, c.profiles, k) && Answered(c.(throughput := k), a, r, ms, m);
      var d := c.(throughput := k);
      ScaleOutIsOrderly(d, a, r, ms, m);
      ProactiveIsHealthy(d);
      forall i | 0 <= i < |a.candidates| ensures Healthy(a.candidates[i]) {
        if r.Some? {
          assert ListsAt(d, a, ms, i);
          StateAfterIsHealthy(d, ms[i]);
        }
      }
    }
  }

  lemma NothingIsOrderly(s: State)
    ensures Orderly(s, NOTHING) && AllHealthy(NOTHING)
  {
  }

  lemma StateAfterIsHealthy(c: Setting, m: nat)
    requires Sound(c) && Healthy(c.state)
    ensures Healthy(StateAfter(c, m))
  {
    hide Models, Fractions;
    FractionsAfter(c, m);
  }

  /** So does removing a pod, as long as at least one has to be left (rm_pod insists that min_pods is positive). */
  lemma RmPodKeepsHealth(c: Setting, minPods: int, a: Answer)
    requires Models(c) && Healthy(c.state) && c.goal.intent.priority >= 0.0 && minPods >= 1 && IsOffer(c, minPods, a)
    ensures Orderly(c.state, a) && AllHealthy(a)
  {
    hide IsExp, Divisible, Modelled, IsThroughput, NoThroughput, Contains, Forecast, Orderly, RmPodUtility;
    if a == NOTHING {
      NothingIsOrderly(c.state);
    } else {
      var k, names :| IsThroughput(c.state, c.profiles, k) && Offers(c.(throughput := k), minPods, a, names);
      var d := c.(throughput := k);
      RmPodIsOrderly(d, minPods, a, names);
      forall i | 0 <= i < |a.candidates| ensures Healthy(a.candidates[i]) {
        assert RemovesAt(d, a, names, i);
        assert names[i] in names;
        OneFewer(c.state.currentPods, names[i]);
      }
    }
  }

  // ---------------------------------------------------------------- plans of the scaling actuators

  /** The actuator at hand is asked about s on behalf of the task; its models and limits are its own. */
  ghost predicate Concerns(t: Task, s: State, c: Setting)
  {
    c.state == s && c.goal == t.goal && c.profiles == t.profiles
  }

  /** The same pods, as available as before; anything else about them may differ. */
  ghost predicate SamePods(pods: map<string, PodState>, others: map<string, PodState>)
  {
    pods.Keys == others.Keys && forall k :: k in pods ==> pods[k].availability == others[k].availability
  }

  const ALLOCATION_NAME := "proactiveResourceAlloc"

  /** What scale_cpu may answer proactively: one more average pod, to see what a change of CPU brings. */
  ghost predicate IsAllocation(s: State, a: Answer)
    requires s.currentPods != map[]
  {
    && |a.candidates| == |a.actions| == 1 && a.utils == [0.1]
    && ALLOCATION_NAME !in s.currentPods && IsUnbooked(a.actions[0])
    && a.candidates[0].currentPods == s.currentPods[ALLOCATION_NAME := NewPod(AverageAvailability(s.currentPods))]
  }

  lemma AllocationIsOrderly(s: State, a: Answer)
    requires Healthy(s) && IsAllocation(s, a)
    ensures Orderly(s, a) && AllHealthy(a)
  {
    hide AverageAvailability;
    AverageIsFraction(s.currentPods);
    assert ALLOCATION_NAME in a.candidates[0].currentPods;
    assert OrderlyAt(s, a, 0);
  }

  /** What any other actuator may answer: it neither adds nor removes pods and has action names of its own. */
  ghost predicate Spares(s: State, a: Answer)
  {
    && |a.candidates| == |a.utils| == |a.actions|
    && forall i :: 0 <= i < |a.candidates| ==> SparesAt(s, a, i)
  }

  ghost predicate SparesAt(s: State, a: Answer, i: nat)
    requires i < |a.candidates| == |a.utils| == |a.actions|
  {
    && SamePods(a.candidates[i].currentPods, s.currentPods) && a.utils[i] >= 0.0 && !Reserved(a.actions[i])
    && a.actions[i].name != SCALE_OUT_ACTION_NAME && a.actions[i].name != RM_POD_ACTION_NAME
    && !IsUnbooked(a.actions[i])
  }

  /** a is an answer of scale_out or rm_pod, a proactive one of scale_cpu, or one that leaves the pods there are. */
  ghost predicate IsScaling(t: Task, s: State, a: Answer)
  {
    || (exists c :: Concerns(t, s, c) && Sound(c) && IsReply(c, a))
    || (exists c, minPods :: Concerns(t, s, c) && Models(c) && minPods >= 1 && IsOffer(c, minPods, a))
    || (s.currentPods != map[] && IsAllocation(s, a))
    || Spares(s, a)
  }

  /** Nobody but such actuators is asked, at least about healthy states. */
  ghost predicate RunsScaling(t: Task)
  {
    forall round: nat, s, j :: Healthy(s) && 0 <= j < |Ask(t, round, s)| ==> IsScaling(t, s, Ask(t, round, s)[j])
  }

  lemma ScalingIsOrderly(t: Task, s: State, a: Answer)
    requires IsScaling(t, s, a) && Healthy(s) && t.goal.intent.priority > 0.0
    ensures Orderly(s, a) && AllHealthy(a)
  {
    hide Sound, Models, IsReply, IsOffer, Orderly, AllHealthy, Fractions, Spares, IsAllocation;
    if c :| Concerns(t, s, c) && Sound(c) && IsReply(c, a) {
      ScaleOutKeepsHealth(c, a);
    } else if c, minPods :| Concerns(t, s, c) && Models(c) && minPods >= 1 && IsOffer(c, minPods, a) {
      RmPodKeepsHealth(c, minPods, a);
    } else if Spares(s, a) {
      SparingIsOrderly(s, a);
    } else {
      AllocationIsOrderly(s, a);
    }
  }

  lemma SparingIsOrderly(s: State, a: Answer)
    requires Spares(s, a) && Healthy(s)
    ensures Orderly(s, a) && AllHealthy(a)
  {
    hide Fractions;
    forall i | 0 <= i < |a.candidates| ensures OrderlyAt(s, a, i) && Healthy(a.candidates[i]) {
      assert SparesAt(s, a, i);
      SamePodsAreAsMany(a.candidates[i].currentPods, s.currentPods);
    }
  }

  lemma SamePodsAreAsMany(pods: map<string, PodState>, others: map<string, PodState>)
    requires SamePods(pods, others)
    ensures |pods| == |others| && (Fractions(others) ==> Fractions(pods)) && (others != map[] ==> pods != map[])
  {
    assert |pods| == |pods.Keys| == |others.Keys| == |others|;
  }

  /** Every state the planner may ask about is healthy, and what it hears there is orderly. */
  ghost predicate AllOrderly(t: Task)
  {
    && IsInvariant(t, s => Healthy(s))
    && forall round: nat, s, j :: Healthy(s) && 0 <= j < |Ask(t, round, s)| ==> Orderly(s, Ask(t, round, s)[j])
  }

  lemma ScalingTask(t: Task)
    requires RunsScaling(t) && Healthy(t.start) && t.goal.intent.priority > 0.0
    ensures AllOrderly(t)
  {
    hide Healthy, IsScaling, Orderly, OrderlyAt;
    forall round: nat, s, j | Healthy(s) && 0 <= j < |Ask(t, round, s)|
      ensures Orderly(s, Ask(t, round, s)[j]) && AllHealthy(Ask(t, round, s)[j])
    {
      ScalingIsOrderly(t, s, Ask(t, round, s)[j]);
    }
    forall round: nat, s, e | Healthy(s) && Offered(t, round, s, e) ensures Healthy(e.node.value) {
      var j: nat, i: nat :| OfferedAt(t, round, j, i, s, e);
      assert AllHealthy(Ask(t, round, s)[j]);
    }
  }

  lemma ProposedIsOrderly(t: Task, round: nat, s: State, e: Edge)
    requires AllOrderly(t) && Proposed(t, round, s, e)
    ensures Healthy(s) && Healthy(e.node.value)
    ensures e.utility >= 0.0 && !Reserved(e.action) && Books(s, e) && Typed(e.action)
  {
    hide Askable, Healthy, Orderly;
    InvariantHolds(t, s => Healthy(s), round, s);
    var j: nat, i: nat :| OfferedAt(t, round, j, i, s, e);
    var a := Ask(t, round, s)[j];
    OrderlyThere(s, a, i);
  }

  lemma OrderlyThere(s: State, a: Answer, i: nat)
    requires Orderly(s, a) && i < |a.candidates|
    ensures OrderlyAt(s, a, i)
  {
  }

  /** With such actuators the planner's assumptions hold: nothing it hears is incomplete or priced below zero. */
  lemma OrderlyTask(t: Task)
    requires AllOrderly(t)
    ensures AllWellFormed(t) && PricesNonNegative(t) && NamesFree(t) && KeepsBooks(t)
  {
    hide Proposed, Healthy, Askable, IsInvariant;
    forall round: nat, s, e | Proposed(t, round, s, e)
      ensures e.utility >= 0.0 && !Reserved(e.action) && Books(s, e)
    {
      ProposedIsOrderly(t, round, s, e);
    }
    forall round: nat, s, j | Askable(t, round, s) && 0 <= j < |Ask(t, round, s)|
      ensures WellFormed(t.cfg, Ask(t, round, s)[j])
    {
      InvariantHolds(t, s => Healthy(s), round, s);
      assert Orderly(s, Ask(t, round, s)[j]);
    }
  }

  lemma OrderlyReplay(t: Task, asked: seq<State>, plan: seq<Action>, states: seq<State>)
    requires AllOrderly(t) && Replays(t, asked, plan, states)
    ensures forall s :: s in states ==> Healthy(s)
    ensures forall a :: a in plan && a.name == SCALE_OUT_ACTION_NAME ==> a.properties.Integers?
  {
    hide AllOrderly, Proposed, Healthy;
    StartIsHealthy(t);
    forall i | 0 <= i < |states| ensures Healthy(states[i]) && (i > 0 ==> Typed(plan[i - 1])) {
      if i > 0 {
        assert Leads(t, asked, states[i - 1], plan[i - 1], states[i - 1 + 1]);
        var round: nat, e :|
          round < |asked| && asked[round] == states[i - 1] && Proposed(t, round, states[i - 1], e)
          && e.action == plan[i - 1] && e.node.value == states[i];
        ProposedIsOrderly(t, round, states[i - 1], e);
      }
    }
    forall i | 0 <= i < |plan| ensures Typed(plan[i]) {
      assert Healthy(states[i + 1]) && (i + 1 > 0 ==> Typed(plan[i + 1 - 1]));
    }
  }

  lemma StartIsHealthy(t: Task)
    requires AllOrderly(t)
    ensures Healthy(t.start)
  {
  }

  /**
   * The replicas Perform adds or removes for a plan, with the pods the plan counts on unbooked, lead to the very number
   * of pods the plan was made for, at least one. So Perform arrives at that number exactly if no step is unbooked.
   */
  lemma PlansConserve(t: Task, asked: seq<State>, plan: seq<Action>, states: seq<State>)
    requires RunsScaling(t) && Healthy(t.start) && t.goal.intent.priority > 0.0 && Replays(t, asked, plan, states)
    ensures |t.start.currentPods| + NetFactor(plan) + Unbooked(plan) == |states[|plan|].currentPods| >= 1
    ensures |t.start.currentPods| + NetFactor(plan) == |states[|plan|].currentPods| <==>
              forall a :: a in plan ==> !IsUnbooked(a)
    ensures forall a :: a in plan && a.name == SCALE_OUT_ACTION_NAME ==> a.properties.Integers?
  {
    hide AllOrderly, AllWellFormed, PricesNonNegative, KeepsBooks, NamesFree, Leads, RunsScaling, Fractions, IsUnbooked,
         IsTranscript;
    ScalingTask(t);
    OrderlyTask(t);
    ReplicasAreConserved(t, asked, plan, states);
    OrderlyReplay(t, asked, plan, states);
    UnbookedIff(plan);
    assert states[|plan|] in states;
  }

  ghost predicate Conserves(t: Task, plan: seq<Action>, factor: int, states: seq<State>)
  {
    && |states| == |plan| + 1
    && |t.start.currentPods| + factor + Unbooked(plan) == |states[|plan|].currentPods| >= 1
  }

  /** Planning with the scaling actuators, and working out the factor. */
  method PlanReplicas(t: Task, sqrt: real -> real) returns (plan: seq<Action>, factor: int)
    requires IsRoot(sqrt) && RunsScaling(t) && Healthy(t.start) && t.goal.intent.priority > 0.0
    ensures exists asked, states :: Replays(t, asked, plan, states) && Conserves(t, plan, factor, states)
  {
    hide IsRoot, AllOrderly, AllWellFormed, PricesNonNegative, KeepsBooks, NamesFree, RunsScaling, Healthy, Leads,
         PlanFound, Searched, Generated, GoalInSight, IsTranscript;
    ScalingTask(t);
    OrderlyTask(t);
    ghost var why;
    plan, why := CreatePlan(t, sqrt);
    ghost var asked, states :| Replays(t, asked, plan, states);
    PlansConserve(t, asked, plan, states);
    factor := ComputeFactor(plan);
    assert Conserves(t, plan, factor, states);
  }
}
