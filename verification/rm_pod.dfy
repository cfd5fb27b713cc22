/** Removing single pods: pkg/planner/actuators/scaling/rm_pod.go. */
module RmPod {
  import opened Folds
  import opened Types
  import opened Kpi
  import opened StateGraphs
  import opened StateGraphBuilder
  import opened ScaleOut

  const RM_POD_ACTION_NAME := "rmPod"

  predicate Contains(s: string, part: string)
  {
    exists i | 0 <= i <= |s| :: OccursAt(s, part, i)
  }

  predicate OccursAt(s: string, part: string, i: nat)
  {
    i + |part| <= |s| && s[i..i + |part|] == part
  }

  /** Pods that are planned but not there yet, and pods that do not run, are left alone. */
  predicate Removable(pods: map<string, PodState>, name: string)
  {
    name in pods && !Contains(name, DUMMY) && pods[name].state == "Running"
  }

  /** There is a model for every latency objective. */
  ghost predicate Modelled(c: Setting)
  {
    forall k :: k in c.state.intent.objectives && TypeOf(c.profiles, k) == Latency ==> c.effects(k).Some?
  }

  ghost predicate CountsAvailability(c: Setting)
  {
    exists k :: k in c.state.intent.objectives && TypeOf(c.profiles, k) == Availability
  }

  function StateWithout(c: Setting, name: string): State
    requires Models(c)
  {
    var copy := DeepCopy(c.state);
    copy.(currentPods := c.state.currentPods - {name},
          intent := copy.intent.(objectives :=
            map k | k in c.state.intent.objectives :: Forecast(c, c.state.currentPods - {name}, k)))
  }

  /** Removing a pod is priced by the availability that is left, where that is an objective. */
  ghost function RmPodUtility(c: Setting, name: string): real
  {
    Times(if CountsAvailability(c) then PodSetAvailability(c.state.currentPods - {name}) else 1.0,
          c.goal.intent.priority)
  }

  function RmPodAction(name: string): Action
  {
    Action(RM_POD_ACTION_NAME, Strings(map["name" := name]))
  }

  /** The answer proposes to remove names[0], names[1], ... */
  ghost predicate Removes(c: Setting, a: Answer, names: seq<string>)
    requires Models(c)
  {
    && |a.candidates| == |a.utils| == |a.actions| == |names|
    && forall j :: 0 <= j < |names| ==> RemovesAt(c, a, names, j)
  }

  ghost predicate RemovesAt(c: Setting, a: Answer, names: seq<string>, j: nat)
    requires Models(c) && |a.candidates| == |a.utils| == |a.actions| == |names| && j < |names|
  {
    && a.candidates[j] == StateWithout(c, names[j]) && a.utils[j] == RmPodUtility(c, names[j])
    && a.actions[j] == RmPodAction(names[j])
  }

  /** The inner loop of NextState over the objectives, whatever order the map is walked in. */
  method Reforecast(c: Setting, pods: map<string, PodState>)
    returns (known: bool, objectives: map<string, real>, util: real)
    requires Models(c)
    ensures known <==> Modelled(c)
    ensures known ==> objectives == map k | k in c.state.intent.objectives :: Forecast(c, pods, k)
    ensures known ==> util == if CountsAvailability(c) then PodSetAvailability(pods) else 1.0
  {
    hide PredictLatency, PodSetAvailability, ScaledThroughput;
    util := 1.0;
    objectives := c.state.intent.objectives;
    ghost var counted := false;
    var todo := objectives.Keys;
    while todo != {}
      invariant todo <= objectives.Keys == c.state.intent.objectives.Keys
      invariant forall k :: k in objectives && k !in todo ==> TypeOf(c.profiles, k) == Latency ==> c.effects(k).Some?
      invariant forall k :: k in objectives ==>
                  objectives[k] == if k in todo then c.state.intent.objectives[k] else Forecast(c, pods, k)
      invariant counted <==> exists k :: k in objectives && k !in todo && TypeOf(c.profiles, k) == Availability
      invariant util == if counted then PodSetAvailability(pods) else 1.0
    {
      var k :| k in todo;
      todo := todo - {k};
      if TypeOf(c.profiles, k) == Latency {
        var res := c.effects(k);
        if res.None? {
          return false, objectives, util;
        }
        objectives := objectives[k := PredictLatency(c.exp, res.value.popt, ScaledThroughput(c, res.value), |pods|)];
      } else if TypeOf(c.profiles, k) == Availability {
        var availability := ComputePodSetAvailability(pods);
        objectives := objectives[k := availability];
        util := objectives[k];
        counted := true;
      }
    }
    known := true;
  }

  lemma RemoveOne(c: Setting, a: Answer, names: seq<string>, name: string, b: Answer)
    requires Models(c) && Removes(c, a, names)
    requires b == Answer(a.candidates + [StateWithout(c, name)], a.utils + [RmPodUtility(c, name)],
                         a.actions + [RmPodAction(name)])
    ensures Removes(c, b, names + [name])
  {
    hide Models, StateWithout, RmPodUtility, RmPodAction;
    forall j | 0 <= j < |names + [name]| ensures RemovesAt(c, b, names + [name], j) {
      if j < |names| {
        assert RemovesAt(c, a, names, j);
      }
    }
  }

  /** What is answered: every removable pod once, if enough pods are left; nothing if a model is missing. */
  ghost predicate Offers(c: Setting, minPods: int, a: Answer, names: seq<string>)
    requires Models(c)
  {
    && Removes(c, a, names) && Distinct(names)
    && forall n :: n in names <==>
        Removable(c.state.currentPods, n) && Modelled(c) && |c.state.currentPods| - 1 >= minPods
  }

  /** What rm_pod may answer: removals at some throughput objective, or nothing if there is no such objective. */
  ghost predicate IsOffer(c: Setting, minPods: int, a: Answer)
    requires Models(c)
  {
    || (a == NOTHING && NoThroughput(c.state, c.profiles))
    || exists k, names :: IsThroughput(c.state, c.profiles, k) && Offers(c.(throughput := k), minPods, a, names)
  }

  method NextState(c: Setting, minPods: int) returns (a: Answer)
    requires Models(c)
    ensures IsOffer(c, minPods, a)
  {
    hide Models, Modelled, StateWithout, Forecast, Removes, CountsAvailability, PodSetAvailability, Contains, IsOffer;
    a := NOTHING;
    ghost var names: seq<string> := [];
    var throughputObjective := FindThroughputObjective(c.state, c.profiles);
    if |throughputObjective| == 0 {
      NothingIsOffer(c, minPods);
      return;
    }
    var s := c.(throughput := throughputObjective);
    ModelsRemain(c, throughputObjective);
    var pods := c.state.currentPods;
    var todo := pods.Keys;
    while todo != {}
      invariant todo <= pods.Keys && Removes(s, a, names) && Distinct(names)
      invariant forall n :: n in names <==>
                  n !in todo && Removable(pods, n) && Modelled(s) && |pods| - 1 >= minPods
    {
      var podName :| podName in todo;
      todo := todo - {podName};
      if Contains(podName, DUMMY) || pods[podName].state != "Running" {
        continue;
      }
      var newState := DeepCopy(c.state);
      newState := newState.(currentPods := newState.currentPods - {podName});
      var known, objectives, util := Reforecast(s, newState.currentPods);
      if !known {
        OffersIsOffer(c, minPods, a, throughputObjective, names);
        return;
      }
      newState := newState.(intent := newState.intent.(objectives := objectives));
      OneFewer(pods, podName);
      IsStateWithout(s, podName, newState, objectives);
      if |newState.currentPods| >= minPods {
        ghost var before := a;
        a := Answer(a.candidates + [newState], a.utils + [Times(util, c.goal.intent.priority)],
                    a.actions + [RmPodAction(podName)]);
        RemoveOne(s, before, names, podName, a);
        names := names + [podName];
      }
    }
    OffersIsOffer(c, minPods, a, throughputObjective, names);
  }

  lemma NothingIsOffer(c: Setting, minPods: int)
    requires Models(c) && NoThroughput(c.state, c.profiles)
    ensures IsOffer(c, minPods, NOTHING)
  {
    hide NoThroughput;
  }

  lemma OffersIsOffer(c: Setting, minPods: int, a: Answer, k: string, names: seq<string>)
    requires Models(c) && IsThroughput(c.state, c.profiles, k) && Offers(c.(throughput := k), minPods, a, names)
    ensures IsOffer(c, minPods, a)
  {
    hide NoThroughput, IsThroughput, Offers;
  }

  lemma ModelsRemain(c: Setting, k: string)
    requires Models(c)
    ensures Models(c.(throughput := k)) && Removes(c.(throughput := k), NOTHING, [])
  {
  }

  lemma IsStateWithout(c: Setting, name: string, s: State, objectives: map<string, real>)
    requires Models(c)
    requires objectives == map k | k in c.state.intent.objectives :: Forecast(c, c.state.currentPods - {name}, k)
    requires var copy := DeepCopy(c.state);
             s == copy.(currentPods := c.state.currentPods - {name}, intent := copy.intent.(objectives := objectives))
    ensures s == StateWithout(c, name)
  {
    hide Forecast, Models;
  }

  lemma OneFewer<T>(pods: map<string, T>, name: string)
    requires name in pods
    ensures |pods - {name}| == |pods| - 1
  {
    var rest := pods - {name};
    assert rest[name := pods[name]] == pods;
  }

  // ---------------------------------------------------------------- the removals, written out

  /** Every pod that runs, and whose name does not mark it as planned only, may be removed. */
  lemma RemovableIff(pods: map<string, PodState>, name: string)
    ensures Removable(pods, name) <==>
              && name in pods && pods[name].state == "Running"
              && forall i, j :: 0 <= i <= j <= |name| ==> name[i..j] != "dummy@"
  {
    forall i, j | 0 <= i <= j <= |name| && name[i..j] == "dummy@" ensures Contains(name, DUMMY) {
      assert j == i + 6;
      assert OccursAt(name, DUMMY, i);
    }
    if Contains(name, DUMMY) {
      var i :| 0 <= i <= |name| && OccursAt(name, DUMMY, i);
      assert name[i..i + 6] == "dummy@";
    }
  }

  /** Which pods are proposed for removal: each removable one once, if enough are left and all models are there. */
  lemma RemovalsAre(c: Setting, minPods: int, a: Answer, names: seq<string>)
    requires Models(c) && Offers(c, minPods, a, names)
    ensures |a.candidates| == |a.utils| == |a.actions| == |names|
    ensures forall i, j :: 0 <= i < j < |names| ==> names[i] != names[j]
    ensures forall n :: n in names <==>
              && Removable(c.state.currentPods, n) && |c.state.currentPods| - 1 >= minPods
              && forall k :: k in c.state.intent.objectives && TypeOf(c.profiles, k) == Latency ==> c.effects(k).Some?
  {
    hide Contains;
  }

  /** What removing a pod leads to. */
  lemma RemovalLeadsTo(c: Setting, minPods: int, a: Answer, names: seq<string>, j: nat, k: string)
    requires Models(c) && Offers(c, minPods, a, names) && j < |names| && k in c.state.intent.objectives
    ensures j < |a.candidates|
    ensures var s, pods := a.candidates[j], c.state.currentPods - {names[j]};
            && s.currentPods == pods && s.intent.objectives.Keys == c.state.intent.objectives.Keys
            && s.(currentPods := c.state.currentPods, intent := s.intent.(objectives := c.state.intent.objectives)) ==
               DeepCopy(c.state)
            && var v := s.intent.objectives[k];
            && (TypeOf(c.profiles, k) == Latency ==> c.effects(k).Some? && Balances(c, c.effects(k).value, pods, v))
            && (TypeOf(c.profiles, k) == Availability ==> v == PodSetAvailability(pods))
            && (TypeOf(c.profiles, k) != Latency && TypeOf(c.profiles, k) != Availability ==>
                  v == c.state.intent.objectives[k])
  {
    hide Contains, IsExp, Divisible, Forecast, Balances, PodSetAvailability, Removable, RmPodUtility;
    assert RemovesAt(c, a, names, j) && names[j] in names;
    ForecastIs(c, c.state.currentPods - {names[j]}, k);
  }

  /** How it is called, and what it is worth: the availability left, if that is an objective, times the priority. */
  lemma RemovalIsWorth(c: Setting, minPods: int, a: Answer, names: seq<string>, j: nat)
    requires Models(c) && Offers(c, minPods, a, names) && j < |names|
    ensures j < |a.utils| && j < |a.actions|
    ensures a.actions[j] == Action("rmPod", Strings(map["name" := names[j]]))
    ensures (exists k :: k in c.state.intent.objectives && TypeOf(c.profiles, k) == Availability) ==>
              a.utils[j] == PodSetAvailability(c.state.currentPods - {names[j]}) * c.goal.intent.priority
    ensures (forall k :: k in c.state.intent.objectives ==> TypeOf(c.profiles, k) != Availability) ==>
              a.utils[j] == c.goal.intent.priority
  {
    hide Contains, IsExp, Divisible, StateWithout, PodSetAvailability, Removable;
    assert RemovesAt(c, a, names, j);
  }

  /** When rm_pod has something to say: only if some objective is about throughput. */
  lemma OfferMeans(c: Setting, minPods: int, a: Answer)
    requires Models(c) && IsOffer(c, minPods, a)
    ensures a.candidates != [] ==> exists k :: k in c.state.intent.objectives && TypeOf(c.profiles, k) == Throughput
    ensures "" !in c.state.intent.objectives
            && (exists k :: k in c.state.intent.objectives && TypeOf(c.profiles, k) == Throughput) ==>
              exists k, names ::
                && k in c.state.intent.objectives && TypeOf(c.profiles, k) == Throughput
                && Offers(c.(throughput := k), minPods, a, names)
  {
    hide Offers, IsExp, Divisible;
    if k, names :| IsThroughput(c.state, c.profiles, k) && Offers(c.(throughput := k), minPods, a, names) {
      assert k in c.state.intent.objectives && TypeOf(c.profiles, k) == Throughput;
    } else {
      assert NoThroughput(c.state, c.profiles);
      forall k | k in c.state.intent.objectives && TypeOf(c.profiles, k) == Throughput
        ensures "" in c.state.intent.objectives
      {
        assert k != "" ==> IsThroughput(c.state, c.profiles, k);
      }
    }
  }
}
