/** Adding replicas: pkg/planner/actuators/scaling/scale_out.go. */
module ScaleOut {
  import opened Folds
  import opened Types
  import opened Kpi
  import opened StateGraphs
  import opened StateGraphBuilder

  const SCALE_OUT_ACTION_NAME := "scaleOut"

  datatype ScaleOutConfig = ScaleOutConfig(maxPods: int, maxProActiveScaleOut: int, proActiveLatencyFactor: real)

  datatype ScaleOutEffect = ScaleOutEffect(throughputScale: (real, real), replicaRange: (int, int),
                                           popt: (real, real, real, real))

  /** What the knowledge base holds about the effect of scaling on an objective, if anything. */
  type Effects = string -> Option<ScaleOutEffect>

  /** What the forecasts rely on of math.Exp. */
  ghost predicate IsExp(exp: real -> real)
  {
    (forall x :: exp(x) > 0.0) && forall x, y :: x < y ==> exp(x) < exp(y)
  }

  /** The models are such that forecasts do not divide by zero. */
  ghost predicate Divisible(effects: Effects)
  {
    forall k :: effects(k).Some? ==> effects(k).value.popt.2 != 0.0
  }

  /** Everything FindStates works with. */
  datatype Setting = Setting(cfg: ScaleOutConfig, exp: real -> real, effects: Effects, state: State, goal: State,
                             profiles: Profiles, throughput: string)

  ghost predicate Models(c: Setting)
  {
    IsExp(c.exp) && Divisible(c.effects)
  }

  ghost predicate Sound(c: Setting)
  {
    && Models(c)
    && c.state.currentPods != map[] && c.goal.intent.priority != 0.0
  }

  // ---------------------------------------------------------------- names of the pods to come

  function Itoa(n: nat): string
  {
    if n < 10 then [Digit(n)] else Itoa(n / 10) + [Digit(n % 10)]
  }

  function Digit(n: nat): char
    requires n < 10
  {
    '0' + n as char
  }

  lemma {:induction false} ItoaIsInjective(m: nat, n: nat)
    requires Itoa(m) == Itoa(n)
    ensures m == n
  {
    var a, b := Itoa(m), Itoa(n);
    assert a[|a| - 1] == Digit(m % 10) && b[|b| - 1] == Digit(n % 10);
    ItoaLength(m);
    ItoaLength(n);
    if m >= 10 && n >= 10 {
      assert a[..|a| - 1] == Itoa(m / 10) && b[..|b| - 1] == Itoa(n / 10);
      ItoaIsInjective(m / 10, n / 10);
    }
  }

  lemma {:induction false} ItoaLength(n: nat)
    ensures |Itoa(n)| >= 1 && (|Itoa(n)| == 1 <==> n < 10)
  {
    if n >= 10 {
      ItoaLength(n / 10);
    }
  }

  const DUMMY := "dummy@"

  function DummyName(i: nat): string
  {
    DUMMY + Itoa(i)
  }

  lemma DummiesDiffer(i: nat, j: nat)
    requires DummyName(i) == DummyName(j)
    ensures i == j
  {
    assert DummyName(i)[|DUMMY|..] == Itoa(i) && DummyName(j)[|DUMMY|..] == Itoa(j);
    ItoaIsInjective(i, j);
  }

  // ---------------------------------------------------------------- forecasts

  function Availabilities(pods: map<string, PodState>): map<string, real>
  {
    map k | k in pods :: pods[k].availability
  }

  function AverageAvailability(pods: map<string, PodState>): real
    requires pods != map[]
  {
    Sum(Availabilities(pods)) / |pods| as real
  }

  /** The loop of averageAvailability, whatever order the map is walked in. */
  method ComputeAverageAvailability(pods: map<string, PodState>) returns (average: real)
    requires pods != map[]
    ensures average == AverageAvailability(pods)
  {
    var res, i := 0.0, 0;
    var todo := pods.Keys;
    ghost var values := Availabilities(pods);
    while todo != {}
      invariant todo <= values.Keys && i + |todo| == |pods|
      invariant res == Sum(values - todo)
    {
      var k :| k in todo;
      SumAdds(values - todo, k, values[k]);
      assert (values - todo)[k := values[k]] == values - (todo - {k});
      res := res + pods[k].availability;
      todo := todo - {k};
      i := i + 1;
    }
    assert values - {} == values;
    return res / i as real;
  }

  function PredictLatency(exp: real -> real, popt: (real, real, real, real), throughput: real, numPods: int): real
    requires IsExp(exp) && popt.2 != 0.0
  {
    if numPods == 0 || throughput == 0.0 then 0.0
    else
      var divisor := Times(popt.2, exp(Times(Times(popt.3, throughput), numPods as real)));
      ProductSign(popt.2, exp(Times(Times(popt.3, throughput), numPods as real)), divisor);
      Times(popt.0, exp(Times(popt.1, throughput))) / divisor
  }

  /** The load a model is evaluated at: the measured throughput, scaled as the model was trained. */
  function ScaledThroughput(c: Setting, e: ScaleOutEffect): real
  {
    Times(Objective(c.state, c.throughput), e.throughputScale.0) + e.throughputScale.1
  }

  /** What objective k is expected to be with these pods. */
  function Forecast(c: Setting, pods: map<string, PodState>, k: string): real
    requires Models(c)
  {
    if TypeOf(c.profiles, k) == Latency && c.effects(k).Some? then
      PredictLatency(c.exp, c.effects(k).value.popt, ScaledThroughput(c, c.effects(k).value), |pods|)
    else if TypeOf(c.profiles, k) == Availability then PodSetAvailability(pods)
    else Objective(c.state, k)
  }

  /** Objective k alone would be satisfied with these pods. */
  predicate Satisfied(c: Setting, pods: map<string, PodState>, k: string)
    requires Models(c)
  {
    || (TypeOf(c.profiles, k) == Latency && Forecast(c, pods, k) <= Objective(c.goal, k))
    || (TypeOf(c.profiles, k) == Availability && Forecast(c, pods, k) >= Objective(c.goal, k))
  }

  ghost predicate SomeSatisfied(c: Setting, pods: map<string, PodState>)
    requires Models(c)
  {
    exists k :: k in c.state.intent.objectives && Satisfied(c, pods, k)
  }

  /** Latency objective k has a model, and that model knows this many replicas. */
  predicate Covered(c: Setting, pods: map<string, PodState>, k: string)
  {
    TypeOf(c.profiles, k) == Latency ==> c.effects(k).Some? && |pods| <= c.effects(k).value.replicaRange.1
  }

  ghost predicate AllCovered(c: Setting, pods: map<string, PodState>)
  {
    forall k :: k in c.state.intent.objectives ==> Covered(c, pods, k)
  }

  /** The forecasts replace the latency and availability objectives of the previous state. */
  function Renewed(c: Setting, last: State, pods: map<string, PodState>, k: string): real
    requires Models(c)
  {
    if TypeOf(c.profiles, k) == Latency || TypeOf(c.profiles, k) == Availability then Forecast(c, pods, k)
    else Objective(last, k)
  }

  /** What findStates does about one objective. */
  method ReconsiderOne(c: Setting, last: State, pods: map<string, PodState>, k: string)
    returns (known: bool, value: real, satisfied: bool)
    requires Models(c) && k in last.intent.objectives
    ensures known <==> Covered(c, pods, k)
    ensures known ==> value == Renewed(c, last, pods, k) && (satisfied <==> Satisfied(c, pods, k))
  {
    hide PredictLatency, PodSetAvailability, ScaledThroughput;
    value, satisfied := last.intent.objectives[k], false;
    if TypeOf(c.profiles, k) == Latency {
      var res := c.effects(k);
      if res.None? {
        return false, value, satisfied;
      }
      if |pods| > res.value.replicaRange.1 {
        return false, value, satisfied;
      }
      value := PredictLatency(c.exp, res.value.popt, ScaledThroughput(c, res.value), |pods|);
      if value <= Objective(c.goal, k) {
        satisfied := true;
      }
    } else if TypeOf(c.profiles, k) == Availability {
      value := ComputePodSetAvailability(pods);
      if value >= Objective(c.goal, k) {
        satisfied := true;
      }
    }
    known := true;
  }

  /** The inner loop of findStates over the objectives, whatever order the map is walked in. */
  method Reconsider(c: Setting, last: State, pods: map<string, PodState>)
    returns (known: bool, objectives: map<string, real>, found: bool)
    requires Models(c) && last.intent.objectives.Keys == c.state.intent.objectives.Keys
    ensures known <==> AllCovered(c, pods)
    ensures known ==> objectives == map k | k in last.intent.objectives :: Renewed(c, last, pods, k)
    ensures known ==> (found <==> SomeSatisfied(c, pods))
  {
    hide Renewed, Covered, Satisfied, Models;
    found := false;
    objectives := last.intent.objectives;
    var todo := objectives.Keys;
    while todo != {}
      invariant todo <= objectives.Keys == last.intent.objectives.Keys
      invariant forall k :: k in objectives && k !in todo ==>
                  Covered(c, pods, k) && objectives[k] == Renewed(c, last, pods, k)
      invariant found <==> exists k :: k in objectives && k !in todo && Satisfied(c, pods, k)
    {
      var k :| k in todo;
      var ok, value, satisfied := ReconsiderOne(c, last, pods, k);
      if !ok {
        return false, objectives, found;
      }
      objectives := objectives[k := value];
      if satisfied {
        found := true;
      }
      todo := todo - {k};
    }
    known := true;
  }

  // ---------------------------------------------------------------- the states after m more pods

  function NewPod(availability: real): PodState
  {
    PodState(availability, "", "", "")
  }

  function FirstDummy(c: Setting): nat
    requires c.state.currentPods != map[]
  {
    |c.state.currentPods| - 1
  }

  /** The name given in round j + 1. */
  function NewName(c: Setting, j: nat): string
    requires c.state.currentPods != map[]
  {
    DummyName(FirstDummy(c) + j)
  }

  /** The pods after m rounds of adding one that is as available as the others are on average. */
  function PodsAfter(c: Setting, m: nat): (pods: map<string, PodState>)
    requires c.state.currentPods != map[]
    ensures pods != map[]
  {
    if m == 0 then c.state.currentPods else
      var pods := PodsAfter(c, m - 1);
      pods[NewName(c, m - 1) := NewPod(AverageAvailability(pods))]
  }

  function StateAfter(c: Setting, m: nat): State
    requires Sound(c)
  {
    if m == 0 then c.state else
      var copy := DeepCopy(c.state);
      copy.(currentPods := PodsAfter(c, m),
            intent := copy.intent.(objectives :=
              map k | k in c.state.intent.objectives :: Forecast(c, PodsAfter(c, m), k)))
  }

  ghost predicate BetterAfter(c: Setting, m: nat)
    requires Sound(c)
  {
    IsBetter(StateAfter(c, m), c.goal, c.profiles)
  }

  function ScaleOutUtility(c: Setting, pods: nat): real
    requires c.cfg.maxPods != 0 && c.goal.intent.priority != 0.0
  {
    0.9 + Times(pods as real / c.cfg.maxPods as real, 1.0 / c.goal.intent.priority)
  }

  function ScaleOutAction(factor: int): Action
  {
    Action(SCALE_OUT_ACTION_NAME, Integers(map["factor" := factor]))
  }

  /** How often the loop can go round. */
  function Rounds(c: Setting): nat
    requires c.state.currentPods != map[]
  {
    if c.cfg.maxPods <= FirstDummy(c) then 0 else c.cfg.maxPods - FirstDummy(c)
  }

  /** The answer lists the states after ms[0], ms[1], ... added pods. */
  ghost predicate Lists(c: Setting, a: Answer, ms: seq<nat>)
    requires Sound(c)
  {
    && |a.candidates| == |a.utils| == |a.actions| == |ms| && (ms != [] ==> c.cfg.maxPods != 0)
    && forall j :: 0 <= j < |ms| ==> ListsAt(c, a, ms, j)
  }

  ghost predicate ListsAt(c: Setting, a: Answer, ms: seq<nat>, j: nat)
    requires Sound(c) && |a.candidates| == |a.utils| == |a.actions| == |ms| && c.cfg.maxPods != 0 && j < |ms|
  {
    && a.candidates[j] == StateAfter(c, ms[j])
    && a.utils[j] == ScaleOutUtility(c, |PodsAfter(c, ms[j])|)
    && a.actions[j] == ScaleOutAction(|PodsAfter(c, ms[j])| - |c.state.currentPods|)
  }

  ghost predicate Increasing(ms: seq<nat>)
  {
    forall i, j :: 0 <= i < j < |ms| ==> ms[i] < ms[j]
  }

  /** ms are the numbers up to m of added pods that satisfy some objective. */
  ghost predicate Collected(c: Setting, ms: seq<nat>, m: nat)
    requires Sound(c)
  {
    && Increasing(ms)
    && forall n :: n in ms <==> 1 <= n <= m && SomeSatisfied(c, PodsAfter(c, n))
  }

  /** The first m rounds ran without error and met the goal at most in the last of them. */
  ghost predicate Tried(c: Setting, m: nat)
    requires Sound(c)
  {
    && (forall n :: 1 <= n <= m ==> AllCovered(c, PodsAfter(c, n)))
    && (forall n :: 1 <= n < m ==> !BetterAfter(c, n))
  }

  lemma NextStateAfter(c: Setting, m: nat)
    requires Sound(c) && AllCovered(c, PodsAfter(c, m + 1))
    ensures var copy := DeepCopy(StateAfter(c, m));
            var objectives := map k | k in copy.intent.objectives :: Renewed(c, copy, PodsAfter(c, m + 1), k);
            StateAfter(c, m + 1) == copy.(currentPods := PodsAfter(c, m + 1),
                                          intent := copy.intent.(objectives := objectives))
  {
    hide IsExp, Divisible, PredictLatency, PodSetAvailability, PodsAfter;
    var copy := DeepCopy(StateAfter(c, m));
    var objectives := map k | k in copy.intent.objectives :: Renewed(c, copy, PodsAfter(c, m + 1), k);
    assert StateAfter(c, m + 1).intent.objectives == objectives by {
      forall k | k in objectives ensures objectives[k] == Forecast(c, PodsAfter(c, m + 1), k) {
        assert Covered(c, PodsAfter(c, m + 1), k);
      }
    }
  }

  lemma TryOne(c: Setting, m: nat)
    requires Sound(c) && Tried(c, m) && (m > 0 ==> !BetterAfter(c, m)) && AllCovered(c, PodsAfter(c, m + 1))
    ensures Tried(c, m + 1)
  {
    hide Sound, AllCovered, BetterAfter, PodsAfter;
  }

  lemma CollectOne(c: Setting, ms: seq<nat>, m: nat)
    requires Sound(c) && Collected(c, ms, m)
    ensures SomeSatisfied(c, PodsAfter(c, m + 1)) ==> Collected(c, ms + [m + 1], m + 1)
    ensures !SomeSatisfied(c, PodsAfter(c, m + 1)) ==> Collected(c, ms, m + 1)
  {
    hide Sound, PodsAfter, SomeSatisfied;
    forall i | 0 <= i < |ms| ensures ms[i] <= m {
      assert ms[i] in ms;
    }
  }

  lemma ListOne(c: Setting, a: Answer, ms: seq<nat>, m: nat, b: Answer)
    requires Sound(c) && Lists(c, a, ms) && c.cfg.maxPods != 0
    requires b == Answer(a.candidates + [StateAfter(c, m)], a.utils + [ScaleOutUtility(c, |PodsAfter(c, m)|)],
                         a.actions + [ScaleOutAction(|PodsAfter(c, m)| - |c.state.currentPods|)])
    ensures Lists(c, b, ms + [m])
  {
    hide Sound, PodsAfter, StateAfter, ScaleOutUtility;
    forall j | 0 <= j < |ms + [m]| ensures ListsAt(c, b, ms + [m], j) {
      if j < |ms| {
        assert ListsAt(c, a, ms, j);
      }
    }
  }

  /** What comes of m rounds: the states after ms added pods, or nothing. */
  ghost predicate Explored(c: Setting, r: Option<Answer>, ms: seq<nat>, m: nat)
    requires Sound(c)
  {
    && m <= Rounds(c)
    && match r
       case Some(answer) =>
         && Tried(c, m) && (m == Rounds(c) || (m > 0 && BetterAfter(c, m)))
         && ms != [] && Collected(c, ms, m) && Lists(c, answer, ms)
       case None =>
         || (m > 0 && Tried(c, m - 1) && !AllCovered(c, PodsAfter(c, m)))
         || (Tried(c, m) && (m == Rounds(c) || (m > 0 && BetterAfter(c, m)))
             && forall n :: 1 <= n <= m ==> !SomeSatisfied(c, PodsAfter(c, n)))
  }

  ghost predicate IsOutcome(c: Setting, r: Option<Answer>)
    requires Sound(c)
  {
    exists ms, m :: Explored(c, r, ms, m)
  }

  lemma ExploredIsOutcome(c: Setting, r: Option<Answer>, ms: seq<nat>, m: nat)
    requires Sound(c) && Explored(c, r, ms, m)
    ensures IsOutcome(c, r)
  {
    hide Explored;
  }

  /**
   * Tries one more pod after the other, keeping the states that satisfy at least one objective, until all objectives
   * are satisfied. Fails if a latency model is missing or does not know that many replicas, or if nothing was kept.
   */
  method FindStates(c: Setting) returns (r: Option<Answer>, ghost ms: seq<nat>, ghost m: nat)
    requires Sound(c)
    ensures IsOutcome(c, r)
    ensures Explored(c, r, ms, m)
  {
    hide Renewed, IsBetter, Lists, Tried, Collected, AllCovered, SomeSatisfied, AverageAvailability, IsExp, Divisible,
         IsOutcome;
    var last := c.state;
    var candidates: seq<State>, utilities: seq<real>, actions: seq<Action> := [], [], [];
    ms, m := [], 0;
    var i := |c.state.currentPods| - 1;
    NothingListed(c);
    while i < c.cfg.maxPods
      invariant i == FirstDummy(c) + m && m <= Rounds(c)
      invariant last == StateAfter(c, m) && last.currentPods == PodsAfter(c, m)
      invariant Tried(c, m) && (m > 0 ==> !BetterAfter(c, m))
      invariant Collected(c, ms, m) && Lists(c, Answer(candidates, utilities, actions), ms)
      invariant last.intent.objectives.Keys == c.state.intent.objectives.Keys
    {
      var newState := DeepCopy(last);
      var average := ComputeAverageAvailability(newState.currentPods);
      var pods := newState.currentPods[DUMMY + Itoa(i) := PodState(average, "", "", "")];
      var known, objectives, found := Reconsider(c, newState, pods);
      ghost var before := m;
      m := m + 1;
      if !known {
        ExploredIsOutcome(c, None, ms, m);
        return None, ms, m;
      }
      NextStateAfter(c, before);
      TryOne(c, before);
      newState := newState.(currentPods := pods, intent := newState.intent.(objectives := objectives));
      CollectOne(c, ms, before);
      if found {
        ListOne(c, Answer(candidates, utilities, actions), ms, m,
                Answer(candidates + [newState], utilities + [ScaleOutUtility(c, |pods|)],
                       actions + [ScaleOutAction(|pods| - |c.state.currentPods|)]));
        candidates := candidates + [newState];
        utilities := utilities + [ScaleOutUtility(c, |pods|)];
        actions := actions + [ScaleOutAction(|pods| - |c.state.currentPods|)];
        ms := ms + [m];
      }
      if IsBetter(newState, c.goal, c.profiles) {
        break;
      }
      last := newState;
      i := i + 1;
    }
    ListsLength(c, Answer(candidates, utilities, actions), ms, m);
    if |candidates| == 0 {
      ExploredIsOutcome(c, None, ms, m);
      return None, ms, m;
    }
    ExploredIsOutcome(c, Some(Answer(candidates, utilities, actions)), ms, m);
    return Some(Answer(candidates, utilities, actions)), ms, m;
  }

  lemma NothingListed(c: Setting)
    requires Sound(c)
    ensures Lists(c, Answer([], [], []), []) && Tried(c, 0) && Collected(c, [], 0)
  {
  }

  lemma ListsLength(c: Setting, a: Answer, ms: seq<nat>, m: nat)
    requires Sound(c) && Lists(c, a, ms) && Collected(c, ms, m)
    ensures |a.candidates| == |ms|
    ensures ms == [] ==> forall n :: 1 <= n <= m ==> !SomeSatisfied(c, PodsAfter(c, n))
  {
  }

  // ---------------------------------------------------------------- the actuator

  /** k names an objective about throughput; the empty name stands for none. */
  ghost predicate IsThroughput(state: State, profiles: Profiles, k: string)
  {
    k != "" && k in state.intent.objectives && TypeOf(profiles, k) == Throughput
  }

  /** No objective is about throughput, unless one of those that are has the empty name. */
  ghost predicate NoThroughput(state: State, profiles: Profiles)
  {
    forall k :: IsThroughput(state, profiles, k) ==> "" in state.intent.objectives && TypeOf(profiles, "") == Throughput
  }

  /** With several throughput objectives it depends on the order in which the map is walked which one is taken. */
  method FindThroughputObjective(state: State, profiles: Profiles) returns (throughputObjective: string)
    ensures throughputObjective != "" ==> IsThroughput(state, profiles, throughputObjective)
    ensures throughputObjective == "" ==> NoThroughput(state, profiles)
  {
    throughputObjective := "";
    var todo := state.intent.objectives.Keys;
    while todo != {}
      invariant todo <= state.intent.objectives.Keys
      invariant throughputObjective != "" ==> IsThroughput(state, profiles, throughputObjective)
      invariant throughputObjective == "" ==>
                  || ("" in state.intent.objectives && TypeOf(profiles, "") == Throughput)
                  || forall k :: k in state.intent.objectives && k !in todo ==> TypeOf(profiles, k) != Throughput
    {
      var k :| k in todo;
      if TypeOf(profiles, k) == Throughput {
        throughputObjective := k;
      }
      todo := todo - {k};
    }
  }

  const NOTHING := Answer([], [], [])

  const PROACTIVE_NAME := "proactiveTemp"

  /** One more pod, in the hope of learning something: latencies are guessed to change by a fixed factor. */
  function ProactiveState(c: Setting): State
    requires c.state.currentPods != map[]
  {
    var copy := DeepCopy(c.state);
    copy.(currentPods := copy.currentPods[PROACTIVE_NAME := NewPod(AverageAvailability(copy.currentPods))],
          intent := copy.intent.(objectives := map k | k in copy.intent.objectives ::
            if TypeOf(c.profiles, k) == Latency then Times(copy.intent.objectives[k], c.cfg.proActiveLatencyFactor)
            else copy.intent.objectives[k]))
  }

  function ProactiveAnswer(c: Setting): Answer
    requires c.state.currentPods != map[]
  {
    Answer([ProactiveState(c)], [0.1], [Action(SCALE_OUT_ACTION_NAME, Integers(map["factor" := 1, "proactive" := 1]))])
  }

  /** The answer for the given throughput objective: what was found, else a proactive pod, else nothing. */
  ghost predicate Answered(c: Setting, a: Answer, r: Option<Answer>, ms: seq<nat>, m: nat)
    requires Sound(c)
  {
    && Explored(c, r, ms, m)
    && a == if r.Some? then r.value
            else if PROACTIVE_NAME !in c.state.currentPods && |c.state.currentPods| < c.cfg.maxProActiveScaleOut
            then ProactiveAnswer(c) else NOTHING
  }

  /** What scale_out may answer: nothing if the goal is met or no objective is about throughput. */
  ghost predicate IsReply(c: Setting, a: Answer)
    requires Sound(c)
  {
    if IsBetter(c.state, c.goal, c.profiles) then a == NOTHING
    else
      || (a == NOTHING && NoThroughput(c.state, c.profiles))
      || exists k, r, ms, m :: IsThroughput(c.state, c.profiles, k) && Answered(c.(throughput := k), a, r, ms, m)
  }

  lemma AnsweredIsReply(c: Setting, k: string, a: Answer, r: Option<Answer>, ms: seq<nat>, m: nat)
    requires Sound(c) && !IsBetter(c.state, c.goal, c.profiles)
    requires IsThroughput(c.state, c.profiles, k) && Answered(c.(throughput := k), a, r, ms, m)
    ensures IsReply(c, a)
  {
    hide IsBetter, IsThroughput, Answered;
  }

  method NextState(c: Setting) returns (a: Answer)
    requires Sound(c)
    ensures IsReply(c, a)
  {
    hide IsBetter, Explored, PredictLatency, PodSetAvailability;
    if IsBetter(c.state, c.goal, c.profiles) {
      return NOTHING;
    }
    var throughputObjective := FindThroughputObjective(c.state, c.profiles);
    if |throughputObjective| == 0 {
      return NOTHING;
    }
    var setting := c.(throughput := throughputObjective);
    var found;
    ghost var ms, m;
    found, ms, m := FindStates(setting);
    if found.None? {
      if PROACTIVE_NAME !in c.state.currentPods && |c.state.currentPods| < c.cfg.maxProActiveScaleOut {
        var copy := DeepCopy(c.state);
        var average := ComputeAverageAvailability(copy.currentPods);
        var pods := copy.currentPods[PROACTIVE_NAME := PodState(average, "", "", "")];
        var objectives := copy.intent.objectives;
        var todo := objectives.Keys;
        while todo != {}
          invariant todo <= objectives.Keys == copy.intent.objectives.Keys
          invariant forall k :: k in objectives ==>
                      objectives[k] == if k !in todo then ProactiveState(c).intent.objectives[k]
                        else copy.intent.objectives[k]
        {
          var name :| name in todo;
          if TypeOf(c.profiles, name) == Latency {
            objectives := objectives[name := Times(objectives[name], c.cfg.proActiveLatencyFactor)];
          }
          todo := todo - {name};
        }
        assert objectives == ProactiveState(c).intent.objectives;
        a := Answer([copy.(currentPods := pods, intent := copy.intent.(objectives := objectives))], [0.1],
                    [Action(SCALE_OUT_ACTION_NAME, Integers(map["factor" := 1, "proactive" := 1]))]);
        AnsweredIsReply(c, throughputObjective, a, found, ms, m);
        return;
      }
      AnsweredIsReply(c, throughputObjective, NOTHING, found, ms, m);
      return NOTHING;
    }
    AnsweredIsReply(c, throughputObjective, found.value, found, ms, m);
    return found.value;
  }

  // ---------------------------------------------------------------- how many pods there are

  lemma {:induction false} NameAfter(c: Setting, m: nat, j: nat)
    requires c.state.currentPods != map[] && m <= j
    ensures NewName(c, j) in PodsAfter(c, m) <==> NewName(c, j) in c.state.currentPods
    ensures NewName(c, j) in PodsAfter(c, m) ==> PodsAfter(c, m)[NewName(c, j)] == c.state.currentPods[NewName(c, j)]
  {
    hide DummyName, AverageAvailability;
    if m > 0 {
      NameAfter(c, m - 1, j);
      if NewName(c, j) == NewName(c, m - 1) {
        DummiesDiffer(FirstDummy(c) + j, FirstDummy(c) + m - 1);
      }
    }
  }

  /** How many of the first m new names belong to a pod already: that pod is replaced, and no pod is added. */
  function Reused(c: Setting, m: nat): (n: nat)
    requires c.state.currentPods != map[]
    ensures n <= m
  {
    if m == 0 then 0 else Reused(c, m - 1) + if NewName(c, m - 1) in c.state.currentPods then 1 else 0
  }

  /** Each round adds a pod, except where its name is taken. */
  lemma {:induction false} PodCount(c: Setting, m: nat)
    requires c.state.currentPods != map[]
    ensures |PodsAfter(c, m)| == |c.state.currentPods| + m - Reused(c, m)
  {
    hide NewName, AverageAvailability;
    if m > 0 {
      PodCount(c, m - 1);
      NameAfter(c, m - 1, m - 1);
    }
  }

  lemma {:induction false} ReusedGrows(c: Setting, few: nat, many: nat)
    requires c.state.currentPods != map[] && few <= many
    ensures Reused(c, few) <= Reused(c, many) <= Reused(c, few) + many - few
    decreases many
  {
    if few < many {
      ReusedGrows(c, few, many - 1);
    }
  }

  /** So the pods grow by one in each of the first m rounds exactly if none of their names is taken. */
  lemma GrowsByOneIff(c: Setting, m: nat)
    requires c.state.currentPods != map[]
    ensures (forall n: nat :: n <= m ==> |PodsAfter(c, n)| == |c.state.currentPods| + n) <==> Reused(c, m) == 0
  {
    PodCount(c, m);
    forall n: nat | n <= m && Reused(c, m) == 0 ensures |PodsAfter(c, n)| == |c.state.currentPods| + n {
      ReusedGrows(c, n, m);
      PodCount(c, n);
    }
  }

  /**
   * It happens: after a pod was added and then another one removed, adding a pod just replaces the one added before.
   */
  lemma RemovalMakesReuse(c: Setting, name: string, d: Setting)
    requires c.state.currentPods != map[] && Reused(c, 1) == 0 && name in c.state.currentPods
    requires d.state.currentPods == PodsAfter(c, 1) - {name}
    ensures d.state.currentPods != map[] && |d.state.currentPods| == |c.state.currentPods|
    ensures Reused(d, 1) == 1 && |PodsAfter(d, 1)| == |d.state.currentPods|
  {
    hide DummyName, AverageAvailability;
    var grown := PodsAfter(c, 1);
    assert Reused(c, 1) == Reused(c, 0) + if NewName(c, 0) in c.state.currentPods then 1 else 0;
    assert grown == PodsAfter(c, 0)[NewName(c, 0) := NewPod(AverageAvailability(PodsAfter(c, 0)))];
    assert NewName(c, 0) in d.state.currentPods;
    PodCount(c, 1);
    assert (grown - {name})[name := grown[name]] == grown;
    assert NewName(d, 0) == NewName(c, 0);
    assert Reused(d, 1) == Reused(d, 0) + 1;
    PodCount(d, 1);
  }

  lemma StateAfterPods(c: Setting, m: nat)
    requires Sound(c)
    ensures StateAfter(c, m).currentPods == PodsAfter(c, m)
  {
    hide Models, Forecast;
  }

  /**
   * Every candidate has as many pods more as its factor says, which is the number of rounds less the names reused; pods
   * and prices never shrink from one candidate to the next, and grow exactly if some name in between was new.
   */
  lemma AnswersGrow(c: Setting, a: Answer, ms: seq<nat>, m: nat, i: nat, j: nat)
    requires Sound(c) && c.goal.intent.priority > 0.0
    requires Lists(c, a, ms) && Collected(c, ms, m) && m <= Rounds(c) && i < j < |ms|
    ensures |a.candidates[j].currentPods| == |c.state.currentPods| + ms[j] - Reused(c, ms[j])
    ensures a.actions[j] == ScaleOutAction(ms[j] - Reused(c, ms[j])) && ms[i] < ms[j]
    ensures |a.candidates[i].currentPods| <= |a.candidates[j].currentPods| && a.utils[i] <= a.utils[j]
    ensures a.utils[i] < a.utils[j] <==> |a.candidates[i].currentPods| < |a.candidates[j].currentPods|
    ensures a.utils[i] < a.utils[j] <==> Reused(c, ms[j]) - Reused(c, ms[i]) < ms[j] - ms[i]
  {
    hide IsExp, Divisible, PodsAfter, SomeSatisfied, ScaleOutUtility, Reused, StateAfter;
    assert ms[i] in ms && ListsAt(c, a, ms, i) && ListsAt(c, a, ms, j);
    PodCount(c, ms[i]);
    PodCount(c, ms[j]);
    ReusedGrows(c, ms[i], ms[j]);
    StateAfterPods(c, ms[i]);
    StateAfterPods(c, ms[j]);
    var few, many := |PodsAfter(c, ms[i])|, |PodsAfter(c, ms[j])|;
    if few < many {
      UtilityGrows(c, few, many);
    }
  }

  lemma UtilityGrows(c: Setting, few: nat, many: nat)
    requires few < many && c.cfg.maxPods > 0 && c.goal.intent.priority > 0.0
    ensures ScaleOutUtility(c, few) < ScaleOutUtility(c, many) && ScaleOutUtility(c, few) >= 0.9
  {
    var max, price := c.cfg.maxPods as real, 1.0 / c.goal.intent.priority;
    var share, more := few as real / max, many as real / max;
    QuotientSign(1.0, c.goal.intent.priority, price);
    QuotientSign(few as real, max, share);
    QuotientSign((many - few) as real, max, more - share);
    ProductSign(share, price, Times(share, price));
    ProductSign(more - share, price, Times(more - share, price));
    assert Times(more - share, price) == Times(more, price) - Times(share, price);
  }

  /** Every candidate stays within the replicas that every latency model knows. */
  lemma CandidatesFit(c: Setting, a: Answer, ms: seq<nat>, m: nat, j: nat, k: string)
    requires Sound(c) && Lists(c, a, ms) && Collected(c, ms, m) && Tried(c, m) && j < |ms|
    requires k in c.state.intent.objectives && TypeOf(c.profiles, k) == Latency
    ensures c.effects(k).Some? && |a.candidates[j].currentPods| <= c.effects(k).value.replicaRange.1
  {
    hide IsExp, Divisible, PodsAfter, SomeSatisfied, BetterAfter;
    assert ms[j] in ms && ListsAt(c, a, ms, j);
    assert AllCovered(c, PodsAfter(c, ms[j]));
    assert Covered(c, PodsAfter(c, ms[j]), k);
  }

  /** No candidate but the last meets the whole goal; if that one does, no smaller number of added pods would have. */
  lemma OnlyLastMeets(c: Setting, a: Answer, ms: seq<nat>, m: nat, j: nat)
    requires Sound(c) && Lists(c, a, ms) && Collected(c, ms, m) && Tried(c, m) && j < |ms|
    requires IsBetter(a.candidates[j], c.goal, c.profiles)
    ensures j == |ms| - 1 && forall n :: 1 <= n < ms[j] ==> !BetterAfter(c, n)
  {
    hide IsExp, Divisible, PodsAfter, SomeSatisfied, IsBetter, AllCovered;
    assert ms[j] in ms && ListsAt(c, a, ms, j);
    assert BetterAfter(c, ms[j]);
    assert ms[|ms| - 1] in ms;
  }

  // ---------------------------------------------------------------- what more pods do to availability

  lemma {:induction false} SumIsAtMostCount(m: map<string, real>)
    requires forall k :: k in m ==> 0.0 <= m[k] <= 1.0
    ensures 0.0 <= Sum(m) <= |m| as real
    decreases |m|
  {
    if m != map[] {
      var k :| k in m;
      SumTakes(m, k);
      SumIsAtMostCount(m - {k});
    }
  }

  lemma AverageIsFraction(pods: map<string, PodState>)
    requires pods != map[] && Fractions(pods)
    ensures 0.0 <= AverageAvailability(pods) <= 1.0
  {
    hide Sum;
    var total, n := Sum(Availabilities(pods)), |pods| as real;
    SumIsAtMostCount(Availabilities(pods));
    assert |Availabilities(pods)| == |pods| by {
      assert Availabilities(pods).Keys == pods.Keys;
    }
    QuotientSign(total, n, total / n);
    var excess := Times(total / n - 1.0, n);
    assert excess == Times(total / n, n) - n;
    ProductSign(total / n - 1.0, n, excess);
  }

  lemma MeanOfMean(total: real, n: real, mean: real)
    requires n > 0.0 && mean == total / n
    ensures (total + mean) / (n + 1.0) == mean
  {
    assert total + mean == Times(mean, n + 1.0);
  }

  /** A pod as available as the others on average leaves that average as it is. */
  lemma AverageStays(pods: map<string, PodState>, k: string)
    requires pods != map[] && k !in pods
    ensures AverageAvailability(pods[k := NewPod(AverageAvailability(pods))]) == AverageAvailability(pods)
  {
    hide Sum;
    var mean := AverageAvailability(pods);
    var values := Availabilities(pods);
    SumAdds(values, k, mean);
    assert Availabilities(pods[k := NewPod(mean)]) == values[k := mean];
    MeanOfMean(Sum(values), |pods| as real, mean);
  }

  function Power(x: real, m: nat): real
  {
    if m == 0 then 1.0 else Times(x, Power(x, m - 1))
  }

  lemma PowerGrows(x: real, m: nat, y: real)
    ensures Times(Power(x, m + 1), y) == Times(x, Times(Power(x, m), y))
  {
    TimesAssociates(x, Power(x, m), y);
  }

  lemma {:induction false} FractionsAfter(c: Setting, m: nat)
    requires c.state.currentPods != map[] && Fractions(c.state.currentPods)
    ensures Fractions(PodsAfter(c, m))
  {
    hide AverageAvailability, NewName;
    if m > 0 {
      FractionsAfter(c, m - 1);
      AverageIsFraction(PodsAfter(c, m - 1));
    }
  }

  lemma QuotientsEqual(a: real, b: real, n: real)
    requires n > 0.0
    ensures a / n == b / n <==> a == b
  {
    assert Times(a / n, n) == a && Times(b / n, n) == b;
  }

  /** An average pod leaves the average as it is, unless it takes the place of one that is not average. */
  lemma AverageStaysIff(pods: map<string, PodState>, k: string)
    requires pods != map[]
    ensures AverageAvailability(pods[k := NewPod(AverageAvailability(pods))]) == AverageAvailability(pods) <==>
              (k in pods ==> pods[k].availability == AverageAvailability(pods))
  {
    hide Sum;
    var mean := AverageAvailability(pods);
    var pods' := pods[k := NewPod(mean)];
    if k in pods {
      var values, values' := Availabilities(pods), Availabilities(pods');
      SumTakes(values, k);
      SumTakes(values', k);
      assert values - {k} == values' - {k};
      assert pods'.Keys == pods.Keys;
      assert |pods'| == |pods'.Keys| == |pods.Keys| == |pods|;
      QuotientsEqual(Sum(values), Sum(values'), |pods| as real);
    } else {
      AverageStays(pods, k);
    }
  }

  /** Whatever is replaced in the first m rounds is as available as the pods are on average. */
  ghost predicate ReplacesEvenly(c: Setting, m: nat)
    requires c.state.currentPods != map[]
  {
    forall j: nat :: j < m && NewName(c, j) in c.state.currentPods ==>
      c.state.currentPods[NewName(c, j)].availability == AverageAvailability(c.state.currentPods)
  }

  lemma {:induction false} AverageAfter(c: Setting, m: nat)
    requires c.state.currentPods != map[] && ReplacesEvenly(c, m)
    ensures AverageAvailability(PodsAfter(c, m)) == AverageAvailability(c.state.currentPods)
  {
    hide AverageAvailability, NewName;
    if m > 0 {
      AverageAfter(c, m - 1);
      NameAfter(c, m - 1, m - 1);
      AverageStaysIff(PodsAfter(c, m - 1), NewName(c, m - 1));
    }
  }

  /** The average given to new pods is the same in all of the first m rounds exactly if they replace evenly. */
  lemma AverageKeptIff(c: Setting, m: nat)
    requires c.state.currentPods != map[]
    ensures (forall n: nat :: n <= m ==>
             AverageAvailability(PodsAfter(c, n)) == AverageAvailability(c.state.currentPods))
            <==> ReplacesEvenly(c, m)
  {
    hide AverageAvailability, NewName;
    var mean := AverageAvailability(c.state.currentPods);
    forall n: nat | n <= m && ReplacesEvenly(c, m) ensures AverageAvailability(PodsAfter(c, n)) == mean {
      AverageAfter(c, n);
    }
    if !ReplacesEvenly(c, m) {
      var j: nat :| j < m && NewName(c, j) in c.state.currentPods
                    && c.state.currentPods[NewName(c, j)].availability != mean;
      NameAfter(c, j, j);
      AverageStaysIff(PodsAfter(c, j), NewName(c, j));
      assert AverageAvailability(PodsAfter(c, j)) != mean || AverageAvailability(PodsAfter(c, j + 1)) != mean;
    }
  }

  lemma SameAvailabilities(pods: map<string, PodState>, k: string, pod: PodState)
    requires k in pods && pods[k].availability == pod.availability
    ensures PodSetAvailability(pods[k := pod]) == PodSetAvailability(pods)
  {
    assert Failures(pods[k := pod]) == Failures(pods);
  }

  /**
   * After m rounds that replace evenly all pods must fail together: the old ones, and an average one for each name that
   * was not reused.
   */
  lemma {:induction false} AvailabilityAfter(c: Setting, m: nat)
    requires c.state.currentPods != map[] && ReplacesEvenly(c, m)
    ensures 1.0 - PodSetAvailability(PodsAfter(c, m)) ==
              Times(Power(1.0 - AverageAvailability(c.state.currentPods), m - Reused(c, m)),
                    1.0 - PodSetAvailability(c.state.currentPods))
  {
    hide PodSetAvailability, AverageAvailability, NewName;
    if m > 0 {
      hide Times, Power;
      var mean, pods, name := AverageAvailability(c.state.currentPods), PodsAfter(c, m - 1), NewName(c, m - 1);
      AvailabilityAfter(c, m - 1);
      AverageAfter(c, m - 1);
      NameAfter(c, m - 1, m - 1);
      if name in pods {
        SameAvailabilities(pods, name, NewPod(mean));
      } else {
        OneMorePod(pods, name, NewPod(mean));
        PowerGrows(1.0 - mean, m - 1 - Reused(c, m - 1), 1.0 - PodSetAvailability(c.state.currentPods));
      }
    } else {
      TimesOneLeft(1.0 - PodSetAvailability(c.state.currentPods));
    }
  }

  /**
   * The pod k is better than average, and the others can fail all at once: an average pod in its place makes it worse.
   */
  ghost predicate Lowers(pods: map<string, PodState>, k: string)
    requires pods != map[]
  {
    k in pods && pods[k].availability > AverageAvailability(pods) && PodSetAvailability(pods - {k}) < 1.0
  }

  lemma LowersIff(pods: map<string, PodState>, k: string)
    requires pods != map[] && Fractions(pods) && k in pods
    ensures PodSetAvailability(pods[k := NewPod(AverageAvailability(pods))]) < PodSetAvailability(pods) <==>
      Lowers(pods, k)
  {
    hide Product, Times, AverageAvailability;
    var mean, old_one := AverageAvailability(pods), pods[k].availability;
    var pods', rest := pods[k := NewPod(mean)], Product(Failures(pods - {k}));
    ProductTakes(Failures(pods), k);
    ProductTakes(Failures(pods'), k);
    assert Failures(pods) - {k} == Failures(pods - {k}) == Failures(pods') - {k};
    ProductOfFractions(Failures(pods - {k}));
    TimesSwaps(1.0 - mean, rest);
    TimesSwaps(1.0 - old_one, rest);
    TimesDistributes(rest, 1.0 - old_one, old_one - mean);
    assert 1.0 - old_one + (old_one - mean) == 1.0 - mean;
    assert Times(rest, 1.0 - mean) == Times(rest, 1.0 - old_one) + Times(rest, old_one - mean);
    TimesSign(rest, old_one - mean);
    if pods - {k} == map[] {
      AverageOfOne(pods, k);
    }
  }

  lemma TimesSign(a: real, b: real)
    requires a >= 0.0
    ensures Times(a, b) > 0.0 <==> a > 0.0 && b > 0.0
  {
    ProductSign(a, b, Times(a, b));
  }

  lemma AverageOfOne(pods: map<string, PodState>, k: string)
    requires k in pods && pods - {k} == map[]
    ensures AverageAvailability(pods) == pods[k].availability
  {
    hide Fold;
    assert pods == map[k := pods[k]];
    SumTakes(Availabilities(pods), k);
    assert Availabilities(pods) - {k} == map[];
    assert Sum(map[]) == 0.0 by {
      SumOfNonNegatives(map[]);
    }
  }

  /** Another round keeps availability a fraction, and lowers it exactly if it replaces a pod it should not. */
  lemma AvailabilityGrows(c: Setting, m: nat)
    requires c.state.currentPods != map[] && Fractions(c.state.currentPods)
    ensures 0.0 <= PodSetAvailability(PodsAfter(c, m)) <= 1.0
    ensures PodSetAvailability(PodsAfter(c, m + 1)) < PodSetAvailability(PodsAfter(c, m)) <==>
              Lowers(PodsAfter(c, m), NewName(c, m))
  {
    hide PodSetAvailability, AverageAvailability, NewName, Fractions;
    var pods, name := PodsAfter(c, m), NewName(c, m);
    FractionsAfter(c, m);
    SetIsFraction(pods);
    AverageIsFraction(pods);
    if name in pods {
      LowersIff(pods, name);
    } else {
      MoreIsNoWorse(pods, name, NewPod(AverageAvailability(pods)));
    }
  }

  ghost predicate NeverLowers(c: Setting, m: nat)
    requires c.state.currentPods != map[]
  {
    forall n: nat :: n < m ==> !Lowers(PodsAfter(c, n), NewName(c, n))
  }

  lemma NotReused(c: Setting, n: nat)
    requires c.state.currentPods != map[] && Reused(c, n + 1) == 0
    ensures NewName(c, n) !in c.state.currentPods
  {
  }

  /** Where no name is reused there is nothing to lower the availability. */
  lemma NoReuseNeverLowers(c: Setting, m: nat)
    requires c.state.currentPods != map[] && Reused(c, m) == 0
    ensures NeverLowers(c, m)
  {
    hide NewName, AverageAvailability, PodsAfter, Reused, PodSetAvailability;
    forall n: nat | n < m ensures !Lowers(PodsAfter(c, n), NewName(c, n)) {
      ReusedGrows(c, n + 1, m);
      NotReused(c, n);
      NameAfter(c, n, n);
    }
  }

  lemma TimesOneLeft(a: real)
    ensures Times(1.0, a) == a
  {
  }

  // ---------------------------------------------------------------- more pods never hurt

  ghost predicate Positive(c: Setting)
  {
    forall k :: k in c.state.intent.objectives && TypeOf(c.profiles, k) == Latency && c.effects(k).Some? ==>
      var e := c.effects(k).value;
      e.popt.0 > 0.0 && e.popt.1 > 0.0 && e.popt.2 > 0.0 && e.popt.3 > 0.0 && ScaledThroughput(c, e) > 0.0
  }

  lemma QuotientShrinks(n: real, d: real, e: real)
    requires n > 0.0 && 0.0 < d < e
    ensures n / e < n / d
  {
    var x, y := n / d, n / e;
    assert Times(x, d) == n && Times(y, e) == n;
    ProductSign(x, d, n);
    var gap := Times(x, e - d);
    ProductSign(x, e - d, gap);
    assert gap == Times(x, e) - Times(x, d);
    var diff := Times(x - y, e);
    assert diff == Times(x, e) - Times(y, e);
    ProductSign(x - y, e, diff);
  }

  lemma TimesPositive(a: real, b: real)
    requires a > 0.0 && b > 0.0
    ensures Times(a, b) > 0.0
  {
    ProductSign(a, b, Times(a, b));
  }

  lemma TimesGrows(a: real, b: real, c: real)
    requires a > 0.0 && b < c
    ensures Times(a, b) < Times(a, c)
  {
    hide Times;
    TimesPositive(a, c - b);
    TimesDistributes(a, b, c - b);
  }

  lemma LatencyShrinks(exp: real -> real, popt: (real, real, real, real), throughput: real, few: nat, many: nat)
    requires IsExp(exp) && popt.0 > 0.0 && popt.2 > 0.0 && popt.3 > 0.0 && throughput > 0.0 && 0 < few < many
    ensures PredictLatency(exp, popt, throughput, many) < PredictLatency(exp, popt, throughput, few)
  {
    hide Times;
    var rate := Times(popt.3, throughput);
    var x, y := Times(rate, few as real), Times(rate, many as real);
    TimesPositive(popt.0, exp(Times(popt.1, throughput)));
    TimesPositive(popt.3, throughput);
    TimesGrows(rate, few as real, many as real);
    TimesPositive(popt.2, exp(x));
    TimesGrows(popt.2, exp(x), exp(y));
    QuotientShrinks(Times(popt.0, exp(Times(popt.1, throughput))), Times(popt.2, exp(x)), Times(popt.2, exp(y)));
  }

  /** Another round makes no forecast worse. */
  lemma ForecastImproves(c: Setting, n: nat, k: string)
    requires Sound(c) && Fractions(c.state.currentPods) && Positive(c) && !Lowers(PodsAfter(c, n), NewName(c, n))
    requires k in c.state.intent.objectives
    ensures TypeOf(c.profiles, k) == Latency ==> Forecast(c, PodsAfter(c, n + 1), k) <= Forecast(c, PodsAfter(c, n), k)
    ensures TypeOf(c.profiles, k) == Availability ==>
      Forecast(c, PodsAfter(c, n + 1), k) >= Forecast(c, PodsAfter(c, n), k)
    ensures TypeOf(c.profiles, k) != Latency && TypeOf(c.profiles, k) != Availability ==>
              Forecast(c, PodsAfter(c, n + 1), k) == Forecast(c, PodsAfter(c, n), k)
  {
    hide PodSetAvailability, PredictLatency, ScaledThroughput, PodsAfter, IsExp, Lowers, NewName;
    if TypeOf(c.profiles, k) == Latency && c.effects(k).Some? {
      PodCount(c, n);
      PodCount(c, n + 1);
      var e := c.effects(k).value;
      if Reused(c, n + 1) == Reused(c, n) {
        LatencyShrinks(c.exp, e.popt, ScaledThroughput(c, e), |PodsAfter(c, n)|, |PodsAfter(c, n + 1)|);
      }
    } else {
      AvailabilityGrows(c, n);
    }
  }

  /** Once a number of rounds satisfies an objective, every larger number does. */
  lemma SatisfiedStays(c: Setting, n: nat)
    requires Sound(c) && Fractions(c.state.currentPods) && Positive(c) && !Lowers(PodsAfter(c, n), NewName(c, n))
    requires SomeSatisfied(c, PodsAfter(c, n))
    ensures SomeSatisfied(c, PodsAfter(c, n + 1))
  {
    hide Positive, Lowers, NewName, PodsAfter, Forecast, IsExp, Divisible, Fractions;
    var k :| k in c.state.intent.objectives && Satisfied(c, PodsAfter(c, n), k);
    ForecastImproves(c, n, k);
    assert Satisfied(c, PodsAfter(c, n + 1), k);
  }

  /**
   * So the candidates come from consecutive rounds, from the first that helps to the last that is tried, and unless
   * names are reused their factors are consecutive too.
   */
  lemma FactorsAreConsecutive(c: Setting, a: Answer, ms: seq<nat>, m: nat, j: nat)
    requires Sound(c) && Fractions(c.state.currentPods) && Positive(c) && NeverLowers(c, m)
    requires Lists(c, a, ms) && Collected(c, ms, m) && j < |ms|
    ensures ms[j] == ms[0] + j && ms[|ms| - 1] == m
    ensures a.actions[j] == ScaleOutAction(ms[j] - Reused(c, ms[j]))
    ensures Reused(c, m) == 0 ==> a.actions[j] == ScaleOutAction(ms[0] + j)
  {
    hide IsExp, Divisible, PodsAfter, SomeSatisfied, BetterAfter, Fractions, Positive, Lowers, NewName, Reused;
    RoundsAreConsecutive(c, ms, m, j);
    assert ms[j] in ms && ListsAt(c, a, ms, j);
    PodCount(c, ms[j]);
    ReusedGrows(c, ms[j], m);
  }

  lemma RoundsAreConsecutive(c: Setting, ms: seq<nat>, m: nat, j: nat)
    requires Sound(c) && Fractions(c.state.currentPods) && Positive(c) && NeverLowers(c, m)
    requires Collected(c, ms, m) && j < |ms|
    ensures ms[j] == ms[0] + j && ms[|ms| - 1] == m
  {
    hide IsExp, Divisible, PodsAfter, SomeSatisfied, Fractions, Positive, Lowers, NewName;
    forall n | n in ms && n < m ensures n + 1 in ms {
      SatisfiedStays(c, n);
    }
    ClosedUpwards(ms, m, j);
  }

  lemma {:induction false} ClosedUpwards(ms: seq<nat>, m: nat, j: nat)
    requires Increasing(ms) && j < |ms| && (forall n :: n in ms ==> n <= m)
      && (forall n :: n in ms && n < m ==> n + 1 in ms)
    ensures ms[j] == ms[0] + j && ms[|ms| - 1] == m
  {
    var last := ms[|ms| - 1];
    forall n | n in ms ensures n <= last {
      var i :| 0 <= i < |ms| && ms[i] == n;
    }
    assert last in ms && (last < m ==> last + 1 in ms);
    if j > 0 {
      ClosedUpwards(ms, m, j - 1);
      assert ms[j - 1] in ms && ms[j] in ms;
      SuccessorFollows(ms, j - 1);
    }
  }

  lemma SuccessorFollows(ms: seq<nat>, j: nat)
    requires Increasing(ms) && j + 1 < |ms| && ms[j] + 1 in ms
    ensures ms[j + 1] == ms[j] + 1
  {
    forall i | 0 <= i < |ms| && ms[i] == ms[j] + 1 ensures i == j + 1 {
    }
  }

  // ---------------------------------------------------------------- more pods than max_pods

  ghost predicate TooMany(c: Setting, r: Option<Answer>)
  {
    r.Some? && exists j :: 0 <= j < |r.value.candidates| && |r.value.candidates[j].currentPods| > c.cfg.maxPods
  }

  /**
   * How far the loop can overshoot: a candidate has more than maxPods pods only if it comes from the very last round.
   */
  lemma OvershootsByOne(c: Setting, a: Answer, ms: seq<nat>, m: nat, j: nat)
    requires Sound(c) && Lists(c, a, ms) && Collected(c, ms, m) && m <= Rounds(c) && j < |ms|
    ensures |a.candidates[j].currentPods| <= c.cfg.maxPods + 1
    ensures |a.candidates[j].currentPods| > c.cfg.maxPods <==> ms[j] == Rounds(c) && Reused(c, Rounds(c)) == 0
  {
    hide IsExp, Divisible, PodsAfter, SomeSatisfied;
    assert ms[j] in ms && ListsAt(c, a, ms, j);
    PodCount(c, ms[j]);
  }

  /**
   * Candidates with more than maxPods pods are proposed exactly if there is room for a round, no name is reused, all
   * rounds go by without an error and without meeting the goal early, and the last one satisfies an objective.
   */
  lemma OvershootsIff(c: Setting, r: Option<Answer>)
    requires Sound(c) && IsOutcome(c, r)
    ensures TooMany(c, r) <==>
              && Rounds(c) > 0 && Reused(c, Rounds(c)) == 0 && Tried(c, Rounds(c))
              && SomeSatisfied(c, PodsAfter(c, Rounds(c)))
  {
    hide Models, PodsAfter, SomeSatisfied, AllCovered, BetterAfter, Rounds, Reused;
    var ms, m :| Explored(c, r, ms, m);
    var rounds := Rounds(c);
    if TooMany(c, r) {
      var j :| 0 <= j < |r.value.candidates| && |r.value.candidates[j].currentPods| > c.cfg.maxPods;
      OvershootsByOne(c, r.value, ms, m, j);
      assert ms[j] in ms;
    }
    if rounds > 0 && Reused(c, rounds) == 0 && Tried(c, rounds) && SomeSatisfied(c, PodsAfter(c, rounds)) {
      assert m == rounds;
      assert rounds in ms;
      var j :| 0 <= j < |ms| && ms[j] == rounds;
      OvershootsByOne(c, r.value, ms, m, j);
    }
  }

  /** Latencies are to be small, availabilities large. */
  ghost predicate Oriented(c: Setting)
  {
    forall k :: k in c.state.intent.objectives ==>
      && (TypeOf(c.profiles, k) == Latency ==> Minimized(c.profiles, k))
      && (TypeOf(c.profiles, k) == Availability ==> !Minimized(c.profiles, k))
  }

  /** Every latency model knows that many replicas. */
  ghost predicate Reaches(c: Setting, replicas: int)
  {
    forall k :: k in c.state.intent.objectives && TypeOf(c.profiles, k) == Latency ==>
      c.effects(k).Some? && replicas <= c.effects(k).value.replicaRange.1
  }

  /** Once the goal is met after some pods, it is met after more. */
  lemma BetterStays(c: Setting, n: nat)
    requires Sound(c) && Fractions(c.state.currentPods) && Positive(c) && Oriented(c) && n > 0
    requires !Lowers(PodsAfter(c, n), NewName(c, n)) && BetterAfter(c, n)
    ensures BetterAfter(c, n + 1)
  {
    hide Positive, Lowers, NewName, PodsAfter, Forecast, IsExp, Divisible, Fractions, Minimized;
    var now, next := StateAfter(c, n), StateAfter(c, n + 1);
    assert now.intent.objectives.Keys == next.intent.objectives.Keys == c.state.intent.objectives.Keys;
    assert |now.intent.objectives| == |now.intent.objectives.Keys| == |next.intent.objectives|;
    forall k | k in next.intent.objectives ensures Meets(next, c.goal, c.profiles, k) {
      assert Meets(now, c.goal, c.profiles, k);
      assert Objective(now, k) == Forecast(c, PodsAfter(c, n), k);
      assert Objective(next, k) == Forecast(c, PodsAfter(c, n + 1), k);
      ForecastImproves(c, n, k);
    }
  }

  lemma {:induction false} BetterFrom(c: Setting, n: nat, m: nat)
    requires Sound(c) && Fractions(c.state.currentPods) && Positive(c) && Oriented(c) && NeverLowers(c, m)
    requires 0 < n <= m && BetterAfter(c, n)
    ensures BetterAfter(c, m)
    decreases m
  {
    hide Positive, Lowers, NewName, PodsAfter, Sound, Fractions, BetterAfter, Oriented;
    if n < m {
      BetterFrom(c, n, m - 1);
      BetterStays(c, m - 1);
    }
  }

  lemma TriedIff(c: Setting, m: nat)
    requires Sound(c) && Reused(c, m) == 0 && m > 0
    ensures Tried(c, m) <==> Reaches(c, |c.state.currentPods| + m) && forall n :: 1 <= n < m ==> !BetterAfter(c, n)
  {
    hide IsExp, Divisible, PodsAfter, Reused, BetterAfter;
    PodCount(c, m);
    if AllCovered(c, PodsAfter(c, m)) {
      forall k | k in c.state.intent.objectives && TypeOf(c.profiles, k) == Latency
        ensures c.effects(k).Some? && |c.state.currentPods| + m <= c.effects(k).value.replicaRange.1
      {
        assert Covered(c, PodsAfter(c, m), k);
      }
    }
    if Reaches(c, |c.state.currentPods| + m) {
      forall n | 1 <= n <= m ensures AllCovered(c, PodsAfter(c, n)) {
        PodCount(c, n);
      }
    }
  }

  /**
   * With positive models the overshoot can be told from the last two rounds: every latency model must know one replica
   * more than maxPods, maxPods replicas must not meet the goal, and one more must satisfy an objective.
   */
  lemma OvershootsWhenItHelps(c: Setting, r: Option<Answer>)
    requires Sound(c) && Fractions(c.state.currentPods) && Positive(c) && Oriented(c) && IsOutcome(c, r)
    requires Rounds(c) > 0 && Reused(c, Rounds(c)) == 0
    ensures |PodsAfter(c, Rounds(c))| == c.cfg.maxPods + 1
    ensures TooMany(c, r) <==>
              && Reaches(c, c.cfg.maxPods + 1)
              && (Rounds(c) > 1 ==> !BetterAfter(c, Rounds(c) - 1))
              && SomeSatisfied(c, PodsAfter(c, Rounds(c)))
  {
    hide Sound, Models, PodsAfter, SomeSatisfied, Tried, BetterAfter, Reused, IsOutcome, TooMany, Positive, Fractions,
         Oriented, Reaches;
    var rounds := Rounds(c);
    OvershootsIff(c, r);
    PodCount(c, rounds);
    TriedIff(c, rounds);
    assert |c.state.currentPods| + rounds == c.cfg.maxPods + 1;
    ReusedGrows(c, rounds - 1, rounds);
    NoReuseNeverLowers(c, rounds - 1);
    forall n | 1 <= n < rounds && BetterAfter(c, n) ensures BetterAfter(c, rounds - 1) {
      BetterFrom(c, n, rounds - 1);
    }
  }

  /** One pod, at most one pod allowed, and an availability that one more pod would reach. */
  function TightSetting(exp: real -> real): Setting
  {
    var intent := Intent("i", 1.0, "ns/app", "Deployment", true, map["up" := 0.5, "rps" := 1.0], None);
    var state := State(intent, map["pod" := PodState(0.5, "", "Running", "")], map[], None, None);
    var goal := state.(intent := intent.(objectives := map["up" := 0.7, "rps" := 1.0]));
    var profiles := map["up" := Profile("up", Availability, "", false, false, ""),
                        "rps" := Profile("rps", Throughput, "", false, false, "")];
    Setting(ScaleOutConfig(1, 0, 1.0), exp, k => None, state, goal, profiles, "rps")
  }

  /** There a second pod is proposed, whatever way the maps are walked. */
  lemma ProposesTooManyPods(exp: real -> real, r: Option<Answer>)
    requires IsExp(exp)
    ensures Sound(TightSetting(exp))
    ensures IsOutcome(TightSetting(exp), r) ==> TooMany(TightSetting(exp), r)
  {
    hide IsExp, IsOutcome, TooMany, SomeSatisfied, PodsAfter, Reused;
    var c := TightSetting(exp);
    assert "pod" in c.state.currentPods;
    SecondPodHelps(c);
    if IsOutcome(c, r) {
      OnlyRoundHelps(c, r);
    }
  }

  lemma OnlyRoundHelps(c: Setting, r: Option<Answer>)
    requires Sound(c) && IsOutcome(c, r) && Rounds(c) == 1 && Reused(c, 1) == 0
    requires (forall k :: k in c.state.intent.objectives ==> TypeOf(c.profiles, k) != Latency)
    requires SomeSatisfied(c, PodsAfter(c, 1))
    ensures TooMany(c, r)
  {
    hide Sound, IsOutcome, TooMany, SomeSatisfied, PodsAfter, Reused, BetterAfter;
    OvershootsIff(c, r);
  }

  lemma SecondPodHelps(c: Setting)
    requires Models(c) && c.state.currentPods != map[]
    requires c.state.currentPods == map["pod" := PodState(0.5, "", "Running", "")]
    requires "up" in c.state.intent.objectives && TypeOf(c.profiles, "up") == Availability
      && Objective(c.goal, "up") == 0.7
    ensures SomeSatisfied(c, PodsAfter(c, 1)) && Reused(c, 1) == 0
  {
    var pods, name := c.state.currentPods, NewName(c, 0);
    assert name[0] == 'd' && "pod"[0] == 'p';
    assert Reused(c, 1) == Reused(c, 0);
    OneAverage(pods);
    assert PodsAfter(c, 0) == pods;
    assert PodsAfter(c, 1) == pods[name := NewPod(0.5)];
    OnePodAvailability(pods);
    OneMorePod(pods, name, NewPod(0.5));
    assert Times(0.5, 0.5) == 0.25;
    assert Satisfied(c, PodsAfter(c, 1), "up");
  }

  lemma OneAverage(pods: map<string, PodState>)
    requires pods != map[] && pods == map["pod" := PodState(0.5, "", "Running", "")]
    ensures AverageAvailability(pods) == 0.5
  {
    SumAdds(map[], "pod", 0.5);
    assert Availabilities(pods) == map["pod" := 0.5];
  }

  lemma OnePodAvailability(pods: map<string, PodState>)
    requires pods == map["pod" := PodState(0.5, "", "Running", "")]
    ensures PodSetAvailability(pods) == 0.5
  {
    ProductAdds(map[], "pod", 0.5);
    assert Failures(pods) == map["pod" := 0.5];
  }

  // ---------------------------------------------------------------- what a forecast means

  /** The forecast balances what the load costs against what the pods give; without load or pods it is 0. */
  lemma LatencyEquation(exp: real -> real, popt: (real, real, real, real), load: real, n: nat)
    requires IsExp(exp) && popt.2 != 0.0
    ensures n > 0 && load != 0.0 ==>
              PredictLatency(exp, popt, load, n) * (popt.2 * exp(popt.3 * load * n as real)) ==
                popt.0 * exp(popt.1 * load)
    ensures n == 0 || load == 0.0 ==> PredictLatency(exp, popt, load, n) == 0.0
  {
    if n > 0 && load != 0.0 {
      var cost := Times(popt.0, exp(Times(popt.1, load)));
      var gain := Times(popt.2, exp(Times(Times(popt.3, load), n as real)));
      ProductSign(popt.2, exp(Times(Times(popt.3, load), n as real)), gain);
      QuotientTimes(cost, gain);
    }
  }

  lemma QuotientTimes(a: real, b: real)
    requires b != 0.0
    ensures a / b * b == a
  {
  }

  /** Where the pods just make up for the load, what is left is the ratio of the two factors. */
  lemma BreakEven(exp: real -> real, popt: (real, real, real, real), load: real, n: nat)
    requires IsExp(exp) && popt.2 != 0.0 && load != 0.0 && n > 0 && popt.1 == popt.3 * n as real
    ensures PredictLatency(exp, popt, load, n) == popt.0 / popt.2
  {
    hide Times;
    var e := exp(Times(popt.1, load));
    SameExponent(popt.1, popt.3, load, n as real);
    TimesIs(popt.2, e);
    ProductSign(popt.2, e, Times(popt.2, e));
    CancelFactor(popt.0, popt.2, e);
  }

  lemma SameExponent(a: real, b: real, load: real, n: real)
    requires a == b * n
    ensures Times(a, load) == Times(Times(b, load), n)
  {
  }

  lemma TimesIs(a: real, b: real)
    ensures Times(a, b) == a * b
  {
  }

  lemma CancelFactor(a: real, b: real, e: real)
    requires b != 0.0 && e != 0.0 && Times(b, e) != 0.0
    ensures Times(a, e) / Times(b, e) == a / b
  {
    var q := a / b;
    assert q * b == a;
    assert Times(a, e) == q * Times(b, e);
  }

  /** A steeper answer to load means more latency. */
  lemma SteeperIsSlower(exp: real -> real, popt: (real, real, real, real), rate: real, load: real, n: nat)
    requires IsExp(exp) && popt.0 > 0.0 && popt.2 > 0.0 && load > 0.0 && n > 0 && popt.1 < rate
    ensures PredictLatency(exp, popt, load, n) < PredictLatency(exp, (popt.0, rate, popt.2, popt.3), load, n)
  {
    hide Times;
    TimesSwaps(popt.1, load);
    TimesSwaps(rate, load);
    TimesGrows(load, popt.1, rate);
    TimesGrows(popt.0, exp(Times(popt.1, load)), exp(Times(rate, load)));
    var gain := Times(popt.2, exp(Times(Times(popt.3, load), n as real)));
    TimesPositive(popt.2, exp(Times(Times(popt.3, load), n as real)));
    QuotientGrows(Times(popt.0, exp(Times(popt.1, load))), Times(popt.0, exp(Times(rate, load))), gain);
  }

  lemma QuotientGrows(a: real, b: real, d: real)
    requires a < b && d > 0.0
    ensures a / d < b / d
  {
    var x, y := a / d, b / d;
    assert x * d == a && y * d == b;
    ProductSign(y - x, d, (y - x) * d);
  }

  lemma LatencyTimes(exp: real -> real, popt: (real, real, real, real), load: real, n: nat)
    requires IsExp(exp) && popt.2 != 0.0 && n > 0 && load != 0.0
    ensures Times(popt.2, exp(Times(Times(popt.3, load), n as real))) != 0.0
    ensures Times(PredictLatency(exp, popt, load, n), Times(popt.2, exp(Times(Times(popt.3, load), n as real)))) ==
              Times(popt.0, exp(Times(popt.1, load)))
  {
    var cost := Times(popt.0, exp(Times(popt.1, load)));
    var gain := Times(popt.2, exp(Times(Times(popt.3, load), n as real)));
    ProductSign(popt.2, exp(Times(Times(popt.3, load), n as real)), gain);
    QuotientTimes(cost, gain);
  }

  /** The forecast is proportional to the first factor, and inversely proportional to the third. */
  lemma ForecastScales(exp: real -> real, popt: (real, real, real, real), scale: real, load: real, n: nat)
    requires IsExp(exp) && popt.2 != 0.0 && Times(scale, popt.2) != 0.0
    ensures PredictLatency(exp, (Times(scale, popt.0), popt.1, popt.2, popt.3), load, n) ==
              Times(scale, PredictLatency(exp, popt, load, n))
    ensures Times(scale, PredictLatency(exp, (popt.0, popt.1, Times(scale, popt.2), popt.3), load, n)) ==
              PredictLatency(exp, popt, load, n)
  {
    if n > 0 && load != 0.0 {
      hide Times, PredictLatency, IsExp;
      var more, less := (Times(scale, popt.0), popt.1, popt.2, popt.3), (popt.0, popt.1, Times(scale, popt.2), popt.3);
      var x, y := exp(Times(popt.1, load)), exp(Times(Times(popt.3, load), n as real));
      var q := PredictLatency(exp, popt, load, n);
      var r, s := PredictLatency(exp, more, load, n), PredictLatency(exp, less, load, n);
      LatencyTimes(exp, popt, load, n);
      LatencyTimes(exp, more, load, n);
      LatencyTimes(exp, less, load, n);
      TimesAssociates(scale, popt.0, x);
      TimesAssociates(scale, popt.2, y);
      TimesAssociates(scale, q, Times(popt.2, y));
      TimesAssociates(s, scale, Times(popt.2, y));
      TimesSwaps(s, scale);
      SameFactor(r, Times(scale, q), Times(popt.2, y));
      SameFactor(Times(scale, s), q, Times(popt.2, y));
    }
  }

  lemma SameFactor(x: real, y: real, b: real)
    requires b != 0.0 && Times(x, b) == Times(y, b)
    ensures x == y
  {
    ProductSign(x - y, b, (x - y) * b);
  }

  // ---------------------------------------------------------------- the candidates, written out

  /** The loop runs from one pod less than there are up to maxPods. */
  lemma RoundsAre(c: Setting)
    requires c.state.currentPods != map[]
    ensures Rounds(c) ==
              if c.cfg.maxPods + 1 > |c.state.currentPods| then c.cfg.maxPods + 1 - |c.state.currentPods| else 0
  {
  }

  function Decimal(s: string): nat
  {
    if s == "" then 0 else Decimal(s[..|s| - 1]) * 10 + if s[|s| - 1] < '0' then 0 else s[|s| - 1] as int - '0' as int
  }

  /** Numbers are written in decimal. */
  lemma {:induction false} ItoaIsDecimal(n: nat)
    ensures Decimal(Itoa(n)) == n && (n > 0 ==> Itoa(n)[0] != '0')
    ensures forall i :: 0 <= i < |Itoa(n)| ==> '0' <= Itoa(n)[i] <= '9'
  {
    ItoaLength(n);
    if n < 10 {
      assert Itoa(n)[..0] == "";
    } else {
      ItoaLength(n / 10);
      ItoaIsDecimal(n / 10);
      assert Itoa(n)[..|Itoa(n)| - 1] == Itoa(n / 10);
    }
  }

  /** What a round does to the pods: one more, under the next dummy name, and average in availability. */
  lemma RoundAdds(c: Setting, m: nat)
    requires c.state.currentPods != map[]
    ensures PodsAfter(c, 0) == c.state.currentPods
    ensures var name := "dummy@" + Itoa(|c.state.currentPods| - 1 + m);
            && name in PodsAfter(c, m + 1) && PodsAfter(c, m + 1).Keys == PodsAfter(c, m).Keys + {name}
            && var pod := PodsAfter(c, m + 1)[name];
            && pod.nodeName == pod.state == pod.qosClass == ""
            && pod.availability * |PodsAfter(c, m)| as real == Sum(Availabilities(PodsAfter(c, m)))
            && forall k :: k in PodsAfter(c, m) && k != name ==> PodsAfter(c, m + 1)[k] == PodsAfter(c, m)[k]
  {
    hide Sum, Itoa, PodsAfter, Availabilities;
    RoundStep(c, m);
    MeanTimesCount(PodsAfter(c, m));
  }

  lemma RoundStep(c: Setting, m: nat)
    requires c.state.currentPods != map[]
    ensures PodsAfter(c, 0) == c.state.currentPods
    ensures PodsAfter(c, m + 1) ==
              PodsAfter(c, m)["dummy@" + Itoa(|c.state.currentPods| - 1 + m) :=
                PodState(AverageAvailability(PodsAfter(c, m)), "", "", "")]
  {
    hide AverageAvailability, Itoa;
  }

  lemma MeanTimesCount(pods: map<string, PodState>)
    requires pods != map[]
    ensures AverageAvailability(pods) * |pods| as real == Sum(Availabilities(pods))
  {
    hide Sum, Availabilities;
    QuotientTimes(Sum(Availabilities(pods)), |pods| as real);
  }

  /** The load of the model of objective k: the measured throughput, scaled. */
  lemma LoadIs(c: Setting, e: ScaleOutEffect)
    ensures ScaledThroughput(c, e) ==
              (if c.throughput in c.state.intent.objectives then c.state.intent.objectives[c.throughput] else 0.0)
              * e.throughputScale.0 + e.throughputScale.1
  {
  }

  /** v is what the model of a latency forecasts for the load with that many pods. */
  ghost predicate Balances(c: Setting, e: ScaleOutEffect, pods: map<string, PodState>, v: real)
  {
    var load := ScaledThroughput(c, e);
    if load == 0.0 || pods == map[] then v == 0.0
    else
      Times(v, Times(e.popt.2, c.exp(Times(Times(e.popt.3, load), |pods| as real)))) ==
        Times(e.popt.0, c.exp(Times(e.popt.1, load)))
  }

  /** What is forecast for an objective with these pods. */
  lemma ForecastIs(c: Setting, pods: map<string, PodState>, k: string)
    requires Models(c) && k in c.state.intent.objectives
    ensures TypeOf(c.profiles, k) == Latency && c.effects(k).Some? ==>
              Balances(c, c.effects(k).value, pods, Forecast(c, pods, k))
    ensures TypeOf(c.profiles, k) == Availability ==> Forecast(c, pods, k) == PodSetAvailability(pods)
    ensures TypeOf(c.profiles, k) != Latency && TypeOf(c.profiles, k) != Availability ==>
              Forecast(c, pods, k) == c.state.intent.objectives[k]
  {
    hide PredictLatency, ScaledThroughput, IsExp, PodSetAvailability, Times;
    if TypeOf(c.profiles, k) == Latency && c.effects(k).Some? {
      var e := c.effects(k).value;
      assert |pods| == 0 <==> pods == map[];
      LatencyEquation(c.exp, e.popt, ScaledThroughput(c, e), |pods|);
      if ScaledThroughput(c, e) != 0.0 && pods != map[] {
        LatencyTimes(c.exp, e.popt, ScaledThroughput(c, e), |pods|);
      }
    }
  }

  /** What is forecast for each objective after m rounds, and that nothing else but the pods changes. */
  lemma StateAfterIs(c: Setting, m: nat, k: string)
    requires Sound(c) && m > 0 && k in c.state.intent.objectives
    ensures var s := StateAfter(c, m);
            && s.currentPods == PodsAfter(c, m) && k in s.intent.objectives
            && s.intent.objectives.Keys == c.state.intent.objectives.Keys
            && s.(currentPods := c.state.currentPods, intent := s.intent.(objectives := c.state.intent.objectives)) ==
               DeepCopy(c.state)
            && var v := s.intent.objectives[k];
            && (TypeOf(c.profiles, k) == Latency && c.effects(k).Some? ==>
                  Balances(c, c.effects(k).value, s.currentPods, v))
            && (TypeOf(c.profiles, k) == Availability ==> v == PodSetAvailability(s.currentPods))
            && (TypeOf(c.profiles, k) != Latency && TypeOf(c.profiles, k) != Availability ==>
                  v == c.state.intent.objectives[k])
  {
    hide PodsAfter, Forecast, Balances, IsExp, Divisible, PodSetAvailability;
    ForecastIs(c, PodsAfter(c, m), k);
  }

  /** After m rounds some objective of its own is where the goal wants it. */
  ghost predicate Helps(c: Setting, s: State)
  {
    exists k :: k in c.state.intent.objectives && HelpsWith(c, s, k)
  }

  ghost predicate HelpsWith(c: Setting, s: State, k: string)
  {
    || (TypeOf(c.profiles, k) == Latency && Objective(s, k) <= Objective(c.goal, k))
    || (TypeOf(c.profiles, k) == Availability && Objective(s, k) >= Objective(c.goal, k))
  }

  lemma HelpsIff(c: Setting, m: nat)
    requires Sound(c) && m > 0
    ensures Helps(c, StateAfter(c, m)) <==> SomeSatisfied(c, PodsAfter(c, m))
  {
    hide PodsAfter, Forecast, IsExp, Divisible;
    var s := StateAfter(c, m);
    forall k | k in c.state.intent.objectives ensures HelpsWith(c, s, k) <==> Satisfied(c, PodsAfter(c, m), k) {
      assert Objective(s, k) == Forecast(c, PodsAfter(c, m), k);
    }
  }

  /**
   * Exactly the rounds that help are answered, in order, up to the first after which the goal is met or to the last
   * one; the answer names the pods added and prices them.
   */
  lemma CandidatesAre(c: Setting, a: Answer) returns (ms: seq<nat>, m: nat)
    requires Sound(c) && IsOutcome(c, Some(a))
    ensures m <= Rounds(c) && (m == Rounds(c) || (m > 0 && IsBetter(StateAfter(c, m), c.goal, c.profiles)))
    ensures forall n: nat :: 1 <= n < m ==> !IsBetter(StateAfter(c, n), c.goal, c.profiles)
    ensures |a.candidates| == |a.utils| == |a.actions| == |ms|
    ensures forall i, j :: 0 <= i < j < |ms| ==> ms[i] < ms[j]
    ensures forall n: nat :: n in ms <==> 1 <= n <= m && Helps(c, StateAfter(c, n))
    ensures forall j :: 0 <= j < |ms| ==>
              var pods := |StateAfter(c, ms[j]).currentPods|;
              && a.candidates[j] == StateAfter(c, ms[j])
              && a.actions[j] == Action("scaleOut", Integers(map["factor" := pods - |c.state.currentPods|]))
              && (a.utils[j] - 0.9) * (c.cfg.maxPods as real * c.goal.intent.priority) == pods as real
  {
    hide IsExp, Divisible, PodsAfter, SomeSatisfied, AllCovered, StateAfter, Helps, ScaleOutUtility, IsBetter, Rounds;
    ms, m :| Explored(c, Some(a), ms, m);
    forall n: nat | 1 <= n < m ensures !IsBetter(StateAfter(c, n), c.goal, c.profiles) {
      assert !BetterAfter(c, n);
    }
    forall n: nat | n >= 1 ensures Helps(c, StateAfter(c, n)) <==> SomeSatisfied(c, PodsAfter(c, n)) {
      HelpsIff(c, n);
    }
    forall j | 0 <= j < |ms|
      ensures var pods := |StateAfter(c, ms[j]).currentPods|;
              && a.candidates[j] == StateAfter(c, ms[j])
              && a.actions[j] == Action("scaleOut", Integers(map["factor" := pods - |c.state.currentPods|]))
              && (a.utils[j] - 0.9) * (c.cfg.maxPods as real * c.goal.intent.priority) == pods as real
    {
      assert ListsAt(c, a, ms, j);
      StateAfterPods(c, ms[j]);
      UtilityIs(c, |PodsAfter(c, ms[j])|);
    }
  }

  lemma UtilityIs(c: Setting, pods: nat)
    requires c.cfg.maxPods != 0 && c.goal.intent.priority != 0.0
    ensures (ScaleOutUtility(c, pods) - 0.9) * (c.cfg.maxPods as real * c.goal.intent.priority) == pods as real
  {
    var x, y := pods as real / c.cfg.maxPods as real, 1.0 / c.goal.intent.priority;
    assert x * c.cfg.maxPods as real == pods as real && y * c.goal.intent.priority == 1.0;
    RegroupFour(x, y, c.cfg.maxPods as real, c.goal.intent.priority);
  }

  lemma RegroupFour(a: real, b: real, x: real, y: real)
    ensures Times(a, b) * (x * y) == (a * x) * (b * y)
  {
  }

  /** For objective k there is no latency model, or it does not know as many replicas as there are after n rounds. */
  ghost predicate OutOfReach(c: Setting, n: nat, k: string)
    requires c.state.currentPods != map[]
  {
    && k in c.state.intent.objectives && TypeOf(c.profiles, k) == Latency
    && (c.effects(k).None? || |PodsAfter(c, n)| > c.effects(k).value.replicaRange.1)
  }

  /** Nothing is found only if a model is missing or does not reach that far in some round, or if no round helps. */
  lemma NothingMeans(c: Setting, r: Option<Answer>)
    requires Sound(c) && IsOutcome(c, r) && r.None?
    ensures || (exists n: nat, k :: 1 <= n <= Rounds(c) && OutOfReach(c, n, k))
            || (forall n: nat ::
                  1 <= n <= Rounds(c) && (forall q: nat :: 1 <= q < n ==> !BetterAfter(c, q)) ==>
                    !Helps(c, StateAfter(c, n)))
  {
    hide IsExp, Divisible, PodsAfter, SomeSatisfied, StateAfter, Helps, Rounds, IsBetter;
    var ms: seq<nat>, m: nat :| Explored(c, r, ms, m);
    if m > 0 && Tried(c, m - 1) && !AllCovered(c, PodsAfter(c, m)) {
      var k :| k in c.state.intent.objectives && !Covered(c, PodsAfter(c, m), k);
      assert OutOfReach(c, m, k);
    } else {
      assert m < Rounds(c) ==> m > 0 && BetterAfter(c, m);
      forall n: nat | 1 <= n <= Rounds(c) && (forall q: nat :: 1 <= q < n ==> !BetterAfter(c, q))
        ensures !Helps(c, StateAfter(c, n))
      {
        HelpsIff(c, n);
      }
    }
  }

  /** If nothing is found, one more average pod is tried, unless that was done before or there are too many. */
  lemma ProactiveMeans(c: Setting, a: Answer, ms: seq<nat>, m: nat)
    requires Sound(c) && Answered(c, a, None, ms, m)
    ensures "proactiveTemp" in c.state.currentPods || |c.state.currentPods| >= c.cfg.maxProActiveScaleOut ==>
              a.candidates == [] && a.utils == [] && a.actions == []
    ensures "proactiveTemp" !in c.state.currentPods && |c.state.currentPods| < c.cfg.maxProActiveScaleOut ==>
              && |a.candidates| == 1 && a.utils == [0.1]
              && a.actions == [Action("scaleOut", Integers(map["factor" := 1, "proactive" := 1]))]
              && var s := a.candidates[0];
              && s.currentPods.Keys == c.state.currentPods.Keys + {"proactiveTemp"}
              && s.currentPods - {"proactiveTemp"} == c.state.currentPods
              && s.currentPods["proactiveTemp"].availability * |c.state.currentPods| as real ==
                 Sum(Availabilities(c.state.currentPods))
              && s.intent.objectives.Keys == c.state.intent.objectives.Keys
              && (forall k :: k in s.intent.objectives ==>
                    s.intent.objectives[k] ==
                      c.state.intent.objectives[k]
                      * (if TypeOf(c.profiles, k) == Latency then c.cfg.proActiveLatencyFactor else 1.0))
              && s.(currentPods := c.state.currentPods, intent := s.intent.(objectives := c.state.intent.objectives)) ==
                 DeepCopy(c.state)
  {
    hide Explored, Sum, IsExp, Divisible;
    QuotientTimes(Sum(Availabilities(c.state.currentPods)), |c.state.currentPods| as real);
  }

  /** When scale_out has something to say: not once the goal is met, and only if some objective is about throughput. */
  lemma ReplyMeans(c: Setting, a: Answer)
    requires Sound(c) && IsReply(c, a)
    ensures IsBetter(c.state, c.goal, c.profiles) ==> a.candidates == [] && a.utils == [] && a.actions == []
    ensures a.candidates != [] ==> exists k :: k in c.state.intent.objectives && TypeOf(c.profiles, k) == Throughput
    ensures !IsBetter(c.state, c.goal, c.profiles) && "" !in c.state.intent.objectives
            && (exists k :: k in c.state.intent.objectives && TypeOf(c.profiles, k) == Throughput) ==>
              exists k, r, ms, m ::
                && k in c.state.intent.objectives && TypeOf(c.profiles, k) == Throughput
                && Answered(c.(throughput := k), a, r, ms, m)
  {
    hide IsBetter, Answered, IsExp, Divisible;
    if !IsBetter(c.state, c.goal, c.profiles) {
      if k, r, ms, m :| IsThroughput(c.state, c.profiles, k) && Answered(c.(throughput := k), a, r, ms, m) {
        assert k in c.state.intent.objectives && TypeOf(c.profiles, k) == Throughput;
      } else {
        assert NoThroughput(c.state, c.profiles);
        forall k | k in c.state.intent.objectives && TypeOf(c.profiles, k) == Throughput
          ensures "" in c.state.intent.objectives
        {
          assert k != "" ==> IsThroughput(c.state, c.profiles, k);
        }
      }
    }
  }
}
