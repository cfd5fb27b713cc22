# Verified model of the intent-driven planner

The planner turns the state a workload is in, and the state its objectives ask for, into a list of actions. This project
models how it does that, and proves what its plans mean.

| file | models |
|---|---|
| `folds.dfy` | sums and products over maps, independent of the order in which Go walks a map |
| `types.dfy` | states, `IsBetter`, `Distance`, `LessResources`, `DeepCopy` |
| `priority_queue.dfy` | the priority queue, and the sift-up and sift-down of Go's `container/heap` run on it |
| `state_graph.dfy` | the state graph; walks, their cost, reachability |
| `astar.dfy` | `solve` and `resolvePath` |
| `state_graph_builder.dfy` | the breadth-first part of `generateStateGraph`, `getNodeForState` |
| `astar_planner.dfy` | the do-nothing shortcut, `addAdditionalStates`, `CreatePlan` |
| `heuristic_limits.dfy` | a search that does not find the cheapest way |
| `kpi.dfy` | pod and pod-set availability |
| `scale_out.dfy`, `rm_pod.dfy` | the answers of the two replica actuators |
| `replicas.dfy` | the factor that `Perform` applies, against what the plan was made for |
| `cpu_scale.dfy` | picking a CPU allocation from the fitted models |
| `plugin_manager.dfy` | registration, retries and eviction of plugins |

How the system is represented:

- A node is an address together with the state stored there: nodes are equal only if their addresses are, whereas
  `getNodeForState` compares the states themselves.
- The actuators are one function from a round, a state, the goal and the profiles to the answers collected in that
  round. Plugins may come and go, change order, or answer at random from round to round.
- `float64` is `real`. `math.Sqrt`, `math.Exp` and `math.Log` are parameters of which only growth, sign and inverse are
  assumed. Connection states, knowledge-base entries and times are parameters too.
- Map loops pick their next key arbitrarily, as Go does; what they compute is proved equal to a function of the map.
- Functions of the source with nested loops are split at their loops, so that each loop has its own contract: `Expand`
  is the inner loop of `solve`, `Absorb` is the closure handed to `Iter`, `BreadthFirst` is the work-list loop.

Main results:

- `Solve` ends on every graph without negative costs, zero-cost cycles included, whatever the heuristic. Each label is
  at all times the cost of a simple walk, and each improvement uses up one of finitely many (node, cost) pairs. It
  returns an empty path exactly if the goal cannot be reached. The predecessor map stays acyclic through every update,
  and the path read from it is a simple way through real edges.
- `Solve` follows a small step relation (`IsRun`) in which ties between waiting nodes are open; what is found is proved
  of every run. Call the height of a way the greatest value, along it, of cost so far plus heuristic, or its whole cost
  if that is more. With a heuristic that is 0 at the goal, as the planner's is, the way found is no higher than any way.
  So every run finds a cheapest way if all ways of least height are cheapest, and none does if none of them is; where
  they all cost the same, a cheapest way is found exactly if one of them is cheapest (`FindsCheapestIff`). Only where
  they differ in cost can ties decide. In particular what is found costs no more than any way along which the heuristic
  does not overestimate. Of a fork of two ways it is decided with ties as well (`CheapestIff`).
- `CreatePlan` returns plans that replay: each kept action leads from one state to the next as some actuator proposed
  it in the very round in which it was asked about that state during this planning, and the plan is empty only if the
  start meets the goal or nothing was found. Whenever the goal is in sight the last state meets it (`PlanMeetsGoal`),
  and the way taken costs no more than any way through goal-meeting states, so no more than any single sufficient action
  and no more than doing nothing.
- The flag `hasGoal` says whether the goal can be reached, unless some actuator proposes a state equal to the goal:
  `HasGoalIffReachable` is the exact condition. Where actuators propose nothing but the goal, every graph that can be
  built reaches it and misses it (`ProposedGoalIsMissed`).
- Whatever `scaleOut`, `rmPod` and the proactive part of `scaleCPU` answer, from start on every state has pods with
  fractional availabilities and every price is non-negative, so that planning ends. Other actuators may change anything
  but which pods there are and how available they are, at prices that are not negative. Carrying out the plan then
  changes the replicas by the difference in pods between the start and the state the plan was made for, less one for
  each proactive change of CPU: that step is planned as if it brought a pod, which nothing in `Perform` provides. So the
  replicas are those of the plan exactly if it has no such step (`PlansConserve`, `PlanReplicas`).
- A round of scaling out adds a pod exactly if its dummy name is not taken (`PodCount`, `GrowsByOneIff`). Names are taken
  in plans that scale out, remove a pod and scale out again (`RemovalMakesReuse`).
- What the definitions behind these results mean is stated apart from them: comparisons, distances and lighter states
  objective by objective, edges answer by answer, forecasts by the equation they solve and by how they move with each
  parameter, candidates, utilities and removals in full, availability by what it lacks to 1, the CPU picked by being
  enough where one step less is not.

Where documentation and code differ, the code is modelled. `docs/planner.md:24-26` says that the most efficient path is
determined. `DetourIsTaken` gives a task for which every plan that can be made, with the goal in sight, follows a dearer
way than there is. `docs/getting_started.md:165` calls `max_pods` the most pods the actuator scales to; `OvershootsIff`
says exactly for which inputs one more is proposed, `OvershootsWhenItHelps` in terms of the models alone, and
`ProposesTooManyPods` is a case.

## Model

| member | source | states |
|---|---|---|
| Types.CompareObjectives | pkg/common/types.go:161-182 | the early-returning loop decides: as many objectives, at least one, and each at least as good in its own direction |
| Types.BetterThanItself | pkg/common/types.go:161-182 | a state is as good as one with the same objectives exactly if it has any |
| Types.BetterByOne | pkg/common/types.go:161-182 | at the value of the other state an objective decides nothing; elsewhere it decides by its direction |
| Types.SumSquares | pkg/common/types.go:149-152 | the accumulated sum is that of the squared gaps, in whatever order the map is walked |
| Types.ComputeDistance | pkg/common/types.go:148-158 | the loop computes the distance that guides planning |
| Types.SquaresSumByOne | pkg/common/types.go:149-152 | what an objective adds to the sum is the square of its gap, a missing one of the other state reading as 0 |
| Types.DistanceSquared | pkg/common/types.go:148-158 | the distance of a state that falls short is the Euclidean one; that of a goal-meeting one is its negated reciprocal; at the goal it is 0 |
| Types.DistanceSign | pkg/common/types.go:148-158 | never positive at a goal-meeting state, never negative elsewhere, 0 at the goal itself |
| Types.CloserIsSmaller | pkg/common/types.go:153-157 | among goal-meeting states, and among the others, the closer one has the smaller distance |
| Types.CompareResources | pkg/common/types.go:185-200 | true exactly if there are resources, the other state has all of them, and none is above its counterpart |
| Types.LessByOne | pkg/common/types.go:185-200 | each resource must be there and not smaller in the other state; without resources a state is never lighter |
| Types.CopyIsSame | pkg/common/types.go:84-145 | a copy is the state itself but for the two fields that are cleared; copies are equal exactly if the originals differ at most in those |
| Folds.FoldTakes | pkg/common/types.go:150-152 | an accumulation that commutes gives the same result whichever key comes first |
| PriorityQueues.PriorityQueue.Swap | pkg/planner/astar/priority_queue.go:27-31 | exchanges two slots, keeps all items, and every item knows its new slot |
| PriorityQueues.PriorityQueue.Push | pkg/planner/astar/priority_queue.go:34-39 | appends the item, which knows its slot |
| PriorityQueues.PriorityQueue.Pop | pkg/planner/astar/priority_queue.go:42-50 | removes the last item and leaves -1 as its index |
| PriorityQueues.RootIsLeast | pkg/planner/astar/priority_queue.go:22-24 | in a heap nothing is smaller than the root |
| Heap.Up | pkg/planner/astar/priority_queue.go:22-31 | restores heap order after an append, keeping all items and their slots known |
| Heap.Down | pkg/planner/astar/priority_queue.go:22-31 | restores heap order below a replaced root, keeping all items and the slots beyond the range |
| Heap.Push | pkg/planner/astar/priority_queue.go:22-39 | the heap gains exactly the item and stays in order |
| Heap.Pop | pkg/planner/astar/priority_queue.go:22-50 | the heap loses exactly one item, of least priority, whose index is -1, and stays in order |
| StateGraphs.StateGraph.AddNode | pkg/planner/astar/state_graph.go:52-54 | appends the node and leaves the edges alone |
| StateGraphs.StateGraph.AddEdge | pkg/planner/astar/state_graph.go:57-59 | appends one edge to those of its source and leaves all others alone |
| StateGraphs.EdgeIsAppended | pkg/planner/astar/state_graph.go:57-59 | the new edge comes last among those of its source; no other node is concerned |
| AStar.ResolvePath | pkg/planner/astar/astar.go:25-38 | ends on rooted predecessors and returns the nodes and actions of the chain in walking order |
| AStar.ChainIsSimple | pkg/planner/astar/astar.go:28-36 | a chain of predecessors that ends never visits a node twice |
| AStar.LowChainSurvives | pkg/planner/astar/astar.go:63-67 | overwriting the predecessor of a node leaves chains from below its label as they are |
| AStar.ChainSurvives | pkg/planner/astar/astar.go:63-67 | after overwriting a predecessor every chain still ends at the start |
| AStar.RelaxMakesTrail | pkg/planner/astar/astar.go:57-64 | an improved label is the cost of a simple walk, zero-cost edges included |
| AStar.RelaxKeepsLabels | pkg/planner/astar/astar.go:56-68 | one relaxation keeps labels, predecessors and their acyclicity intact, and never touches the start |
| AStar.RelaxShrinks | pkg/planner/astar/astar.go:63-64 | each improvement uses up one of finitely many possible labels |
| AStar.SimpleCostsComplete | pkg/planner/astar/astar.go:51-70 | the costs of simple walks are finitely many |
| AStar.TakeEdge | pkg/planner/astar/astar.go:63-67 | an improving edge keeps the search invariant with its node waiting anew, and the room for further labels shrinks |
| AStar.FollowedOrQueued | pkg/planner/astar/astar.go:51-69 | a way is followed to its end, or some node waits no higher than the way leads, stale items notwithstanding |
| AStar.NextIsLow | pkg/planner/astar/astar.go:51-69 | the label of whatever is expanded, with its heuristic, is no higher than any way to the goal |
| AStar.RunKeeps | pkg/planner/astar/astar.go:51-70 | in every run, whatever ties decide, labels, predecessors, waiting and expanded nodes keep their invariant |
| AStar.StepShrinks | pkg/planner/astar/astar.go:51-70 | every step of a run hands out a label or leaves fewer nodes waiting, so no run goes on for ever |
| AStar.GoalLabelIsCheap | pkg/planner/astar/astar.go:52-55 | when the goal is popped its label is no more than the height of any way to it |
| AStar.NothingIsLeft | pkg/planner/astar/astar.go:51-72 | a run that leaves nothing waiting has shown that the goal cannot be reached |
| AStar.ChainIsRoute | pkg/planner/astar/astar.go:25-38 | the chain of a label is a walk of real edges with their actions, at no more than the label, and nowhere higher than any way to the goal |
| AStar.RunFinds | pkg/planner/astar/astar.go:51-55 | every run that takes the goal has found a simple way, neither dearer nor, if the heuristic is 0 at the goal, higher than any way is high |
| AStar.SameBag | pkg/planner/astar/astar.go:42-52 | which items wait at which priority does not depend on their order in the queue |
| AStar.Expand | pkg/planner/astar/astar.go:56-69 | the inner loop relaxes the edges of a node one after the other, as the step relation says |
| AStar.FoundIsSolved | pkg/planner/astar/astar.go:53-55 | popping the goal yields what a search promises |
| AStar.HonestIsCheapest | pkg/planner/astar/astar.go:41-70 | so no dearer than any way along which the heuristic never overestimates |
| AStar.FindsCheapestIff | pkg/planner/astar/astar.go:41-70 | if all ways of least height are cheapest so is what any run finds, if none is it is not, and if they cost the same it is exactly if one of them is |
| AStar.Solve | pkg/planner/astar/astar.go:41-73 | ends; empty path exactly if unreachable; else nodes and actions of a simple way, neither dearer nor higher than any way to the goal is high, along a run of the step relation |
| HeuristicLimits.ArrivesThroughB | pkg/planner/astar/astar.go:51-70 | at a fork with a misleading heuristic every run arrives by the dearer way |
| HeuristicLimits.CheapestIff | pkg/planner/astar/astar.go:51-70 | at a fork every run takes the cheaper way exactly if cost so far plus heuristic is greater somewhere on the dearer one than at the node the cheaper one leads through |
| HeuristicLimits.TakesTheDearerWay | pkg/planner/astar/astar.go:41-73 | a graph and the planner's own distance for which `Solve`, and every other run of the search, returns the dearer of two ways |
| HeuristicLimits.DetourIsTaken | pkg/planner/astar/astar_planner.go:158-166 | for any price below the distance of a far state there is a task with the goal in sight where every run of the planner's search pays it, although the way over the far state is free |
| HeuristicLimits.PlansTheDearerWay | pkg/planner/astar/astar_planner.go:158-186 | `CreatePlan` makes such a plan |
| StateGraphBuilder.GetNodeForState | pkg/planner/astar/astar_planner.go:48-58 | the newest node with this very state, or a node at a new address if there is none |
| StateGraphBuilder.KnownKeepsGrown | pkg/planner/astar/astar_planner.go:83-88 | an edge to a known node keeps the breadth-first invariant |
| StateGraphBuilder.NewKeepsGrown | pkg/planner/astar/astar_planner.go:84-93 | a new node keeps it: no twins, one level below its parent, linked to the goal if it meets it |
| StateGraphBuilder.TakeCandidate | pkg/planner/astar/astar_planner.go:80-94 | the edge made for a candidate carries that candidate's own utility and action |
| StateGraphBuilder.TranscriptHolds | pkg/planner/astar/astar_planner.go:72-90 | round by round the planner asks about start, then about states it was told of before, never about one twice and never about one that equals the goal |
| StateGraphBuilder.InvariantHolds | pkg/planner/astar/astar_planner.go:72-90 | what start has and proposals pass on holds of every state the planner may ask about |
| StateGraphBuilder.Absorb | pkg/planner/astar/astar_planner.go:77-96 | every candidate within the limit gets its edge; new states are queued in order; at most that many nodes are added |
| StateGraphBuilder.BreadthFirst | pkg/planner/astar/astar_planner.go:61-98 | ends for arbitrary actuators, expands at most MaxStates-2 states, bounds the nodes, and hears every answer for expanded states |
| StateGraphBuilder.EdgesAreAnswers | pkg/planner/astar/astar_planner.go:79-94 | every edge is the free link of a goal-meeting state, or one of the first MaxCandidates candidates of an answer to its source's round, with that candidate's own utility and action |
| StateGraphBuilder.AnswersAreEdges | pkg/planner/astar/astar_planner.go:79-94 | and for each expanded state each of the first MaxCandidates candidates of each answer has its edge |
| StateGraphBuilder.MetIsLinked | pkg/planner/astar/astar_planner.go:88-93 | every discovered state that meets the goal has a free link to it |
| StateGraphBuilder.MetIsDiscovered | pkg/planner/astar/astar_planner.go:88-93 | the flag of this phase says exactly whether there is such a state |
| StateGraphBuilder.DiscoveredRoute | pkg/planner/astar/astar_planner.go:72-98 | every discovered state can be reached in as many actions as its discovery depth |
| StateGraphBuilder.DepthIsLeast | pkg/planner/astar/astar_planner.go:72-98 | no walk reaches it in fewer |
| StateGraphBuilder.ReachableIffMet | pkg/planner/astar/astar_planner.go:83-93 | the goal can be reached exactly if a discovered state meets it or a proposed state equals it |
| StateGraphBuilder.ShortestEndsAtNearest | pkg/planner/astar/astar_planner.go:102-105 | a shortest way ends at the goal-meeting state of least discovery depth, one edge before the goal |
| Planner.CountedIsShortest | pkg/planner/astar/astar_planner.go:102 | with the empty heuristic and counted edges the search finds a shortest way |
| Planner.GenerateStateGraph | pkg/planner/astar/astar_planner.go:61-121 | the shortcut exists exactly if start meets the goal and the goal is reachable, at k or 1.01 k for the k actions of a shortest way; hasGoal and size bounds |
| Planner.ShortcutIff | pkg/planner/astar/astar_planner.go:101-118 | the detour is there exactly if start meets the goal and the goal can be reached |
| Planner.ShortcutIs | pkg/planner/astar/astar_planner.go:103-117 | it leads over a copy of start under another target; its price is one less than the edges of a shortest way, times 1.01 if that way ends with fewer pods or less resources |
| Planner.PriceIsDepth | pkg/planner/astar/astar_planner.go:105-110 | the shortcut costs k or 1.01 k, where k is the least discovery depth of a goal-meeting state, unless the goal itself was proposed; 1.01 k if that state has fewer pods or less resources |
| Planner.HasGoalIffReachable | pkg/planner/astar/astar_planner.go:70-120 | the goal is reachable exactly if hasGoal, or a proposed state equals the goal |
| Planner.HasGoalIsExact | pkg/planner/astar/astar_planner.go:70-120 | if no actuator proposes the goal state itself, the goal is reachable exactly if hasGoal |
| Planner.ProposedGoalIsMissed | pkg/planner/astar/astar_planner.go:83-93 | where actuators propose nothing but the goal to a start that falls short of it, every graph that can be built leads to the goal without hasGoal being set |
| Planner.MissesProposedGoal | pkg/planner/astar/astar_planner.go:61-121 | `generateStateGraph` returns such a graph and false |
| Planner.FinishedIsPlanGraph | pkg/planner/astar/astar_planner.go:88-116 | every edge was proposed in the round in which its source was asked about, or is a goal link from a goal-meeting state, or the detour of a start that meets the goal |
| Planner.StepsReplay | pkg/planner/astar/astar_planner.go:165-183 | a walk short of the goal consists of answers heard in this planning, replays state by state, and loses no action |
| Planner.RouteIsPlan | pkg/planner/astar/astar_planner.go:164-183 | what is kept of any way to the goal replays from start by answers heard in this planning and ends where it should; empty only if start meets the goal |
| Planner.MeetingIsHonest | pkg/planner/astar/astar_planner.go:129-132 | at goal-meeting states the distance never overestimates |
| Planner.SearchIsCheapestThroughMet | pkg/planner/astar/astar_planner.go:164-166 | the way found costs no more than any way through goal-meeting states |
| Planner.PlanIsCheapestIff | pkg/planner/astar/astar_planner.go:164-166 | the way of a plan is no higher than any; it is cheapest if all such ways are, only if one is, and exactly then if they cost the same |
| Planner.PlanIsNoDearer | pkg/planner/astar/astar_planner.go:164-166 | the way of a plan costs no more than any along which the distance to the goal never overestimates what is left |
| Planner.NoDearerThanOneAction | pkg/planner/astar/astar_planner.go:164-166 | it costs no more than any single action to a goal-meeting state |
| Planner.NoDearerThanShortcut | pkg/planner/astar/astar_planner.go:110-117 | it costs no more than the do-nothing shortcut |
| Planner.AddAdditionalStates | pkg/planner/astar/astar_planner.go:135-156 | links min(N, others) distinct nodes to the goal, none of them further away than a node left out in terms of objectives, and changes nothing else |
| Planner.CloserBySquares | pkg/planner/astar/astar_planner.go:141-150 | closer is what has smaller squared gaps to the goal, among states that fall short and among those that meet it; the latter come first |
| Planner.LinkedAreClosest | pkg/planner/astar/astar_planner.go:141-150 | with no goal in sight no state left out has smaller squared gaps than a linked one |
| Planner.LinksAre | pkg/planner/astar/astar_planner.go:150 | exactly the linked nodes get a free link to the goal |
| Planner.OthersCount | pkg/planner/astar/astar_planner.go:138-141 | all nodes but start and goal may be linked |
| Planner.OpportunisticGraph | pkg/planner/astar/astar_planner.go:150 | with links the goal can be reached and each further edge is one of them |
| Planner.LinksOrOffer | pkg/planner/astar/astar_planner.go:169-175 | with no goal in sight there is a way exactly if a node was linked or a proposed state equals the goal |
| Planner.Search | pkg/planner/astar/astar_planner.go:165-175 | there is a plan with its meaning and cost exactly if the goal can be reached |
| Planner.DropOwnActions | pkg/planner/astar/astar_planner.go:177-183 | the loop keeps the actions in order, without those of the planner itself |
| Planner.CreatePlan | pkg/planner/astar/astar_planner.go:158-186 | with the goal in sight a plan that replays by answers heard in this planning, comes out of a run of the search, and is cheapest through goal-meeting states; else an opportunistic one, or none |
| Planner.PlanMeetsGoal | pkg/planner/astar/astar_planner.go:164-166 | whenever the goal is in sight the plan ends in a state that meets it |
| Planner.PlanEndsLinked | pkg/planner/astar/astar_planner.go:169-175 | unless a proposed state equals the goal, an opportunistic plan ends in a linked node |
| Kpi.Average | pkg/controller/kpi.go:154-160 | the mean of a non-empty list |
| Kpi.ComputePodAvailability | pkg/controller/kpi.go:119-138 | the loop over outages computes mean time up over mean time up plus mean time down |
| Kpi.FullyAvailableIff | pkg/controller/kpi.go:119-138 | the result is at most 1, and is 1 exactly if the outages, if any, lasted no time at all |
| Kpi.AvailabilityRatio | pkg/controller/kpi.go:124-138 | the result is to what it lacks to 1 as the mean uptime, of one more interval than there are outages, is to the mean outage |
| Kpi.UpAndDownAddUp | pkg/controller/kpi.go:124-134 | the collected intervals add up to the time since creation, whatever the list |
| Kpi.NeverOverstated | pkg/controller/kpi.go:119-138 | for chronological outages the result lies between 0 and the true share of uptime |
| Kpi.GrowsWithTime | pkg/controller/kpi.go:119-138 | without a further outage the result does not go down |
| Kpi.ComputePodSetAvailability | pkg/controller/kpi.go:141-151 | one minus the chance that all pods are down, 1 for no pods, whatever the map order |
| Kpi.OnePod | pkg/controller/kpi.go:141-151 | a single pod is as available as it is |
| Kpi.OneMorePod | pkg/controller/kpi.go:147-150 | one more pod multiplies the chance of a joint failure by its own |
| Kpi.SetIsFraction | pkg/controller/kpi.go:141-151 | the availability of a set lies between 0 and 1 |
| Kpi.MoreIsNoWorse | pkg/controller/kpi.go:141-151 | another pod never makes the set less available |
| Kpi.FewerIsNoBetter | pkg/controller/kpi.go:141-151 | removing a pod from two or more never makes it more available; removing the only one reads as 1 |
| ScaleOut.ComputeAverageAvailability | pkg/planner/actuators/scaling/scale_out.go:76-84 | the mean availability, whatever the map order |
| ScaleOut.ReconsiderOne | pkg/planner/actuators/scaling/scale_out.go:106-125 | one objective: unknown model or range is an error, else its forecast and whether it is satisfied |
| ScaleOut.Reconsider | pkg/planner/actuators/scaling/scale_out.go:105-126 | all objectives: error exactly if one is not covered, found exactly if one is satisfied |
| ScaleOut.NextStateAfter | pkg/planner/actuators/scaling/scale_out.go:103-138 | the state built in a round is the closed form after one more pod |
| ScaleOut.FindStates | pkg/planner/actuators/scaling/scale_out.go:96-144 | exactly the states after those numbers of rounds that satisfy some objective, up to the first that meets the goal, or the error |
| ScaleOut.CandidatesAre | pkg/planner/actuators/scaling/scale_out.go:96-144 | the rounds that help are answered in order up to the first after which the goal is met, or to the last; with their pods as factor, and as utility 0.9 plus the share of MaxPods over the priority |
| ScaleOut.StateAfterIs | pkg/planner/actuators/scaling/scale_out.go:103-121 | only pods and objectives differ after some rounds; each objective is forecast by its own model |
| ScaleOut.ForecastIs | pkg/planner/actuators/scaling/scale_out.go:105-121 | a latency balances the load and the pods of its model, an availability is that of the pods, all else stays |
| ScaleOut.LoadIs | pkg/planner/actuators/scaling/scale_out.go:117 | the load is the measured throughput, scaled and shifted |
| ScaleOut.RoundAdds | pkg/planner/actuators/scaling/scale_out.go:101-104 | a round adds a pod under the next dummy name, as available as those before are on average |
| ScaleOut.ItoaIsDecimal | pkg/planner/actuators/scaling/scale_out.go:104 | the number in that name is written in decimal |
| ScaleOut.RoundsAre | pkg/planner/actuators/scaling/scale_out.go:101 | how many rounds there can be |
| ScaleOut.NothingMeans | pkg/planner/actuators/scaling/scale_out.go:107-143 | an error comes only from a latency model that is missing or does not reach that far, or if no round helps |
| ScaleOut.FindThroughputObjective | pkg/planner/actuators/scaling/scale_out.go:151-160 | some throughput objective if there is one |
| ScaleOut.NextState | pkg/planner/actuators/scaling/scale_out.go:146-179 | nothing once the goal is met or without throughput objective; else the states found, else one proactive pod if allowed |
| ScaleOut.ReplyMeans | pkg/planner/actuators/scaling/scale_out.go:146-162 | nothing is answered once the goal is met or without a throughput objective; else what was found for one of those |
| ScaleOut.ProactiveMeans | pkg/planner/actuators/scaling/scale_out.go:163-176 | if nothing is found, one average pod at utility 0.1 with all latencies changed by the factor, unless tried before or there are too many pods |
| ScaleOut.PodCount | pkg/planner/actuators/scaling/scale_out.go:103-104 | after m rounds there are m pods more, less one for each name that was taken |
| ScaleOut.GrowsByOneIff | pkg/planner/actuators/scaling/scale_out.go:101-104 | the pods grow by one in each of the first m rounds exactly if none of their names is taken |
| ScaleOut.RemovalMakesReuse | pkg/planner/actuators/scaling/scale_out.go:101-104 | after scaling out by one and removing another pod, the next round takes a name again and adds no pod |
| ScaleOut.AnswersGrow | pkg/planner/actuators/scaling/scale_out.go:128-133 | pods and utilities never shrink from candidate to candidate, and grow exactly if a name in between was new; the factor is the number of pods added |
| ScaleOut.CandidatesFit | pkg/planner/actuators/scaling/scale_out.go:113-115 | every candidate stays within the replica range of every latency model |
| ScaleOut.OnlyLastMeets | pkg/planner/actuators/scaling/scale_out.go:135-138 | only the last candidate can meet the goal, and then no fewer added pods would |
| ScaleOut.LatencyShrinks | pkg/planner/actuators/scaling/scale_out.go:87-93 | with positive parameters more pods mean strictly less latency |
| ScaleOut.LatencyEquation | pkg/planner/actuators/scaling/scale_out.go:87-93 | the forecast times what the pods give is what the load costs; it is 0 without load or pods |
| ScaleOut.BreakEven | pkg/planner/actuators/scaling/scale_out.go:87-93 | where pods and load offset each other, the ratio of the two factors is left |
| ScaleOut.SteeperIsSlower | pkg/planner/actuators/scaling/scale_out.go:87-93 | it grows strictly with the rate at which load costs |
| ScaleOut.ForecastScales | pkg/planner/actuators/scaling/scale_out.go:87-93 | it is proportional to one factor and inversely proportional to the other |
| ScaleOut.AverageAfter | pkg/planner/actuators/scaling/scale_out.go:104 | the average given to new pods does not change while whatever is replaced is average |
| ScaleOut.AverageKeptIff | pkg/planner/actuators/scaling/scale_out.go:76-104 | and it is the same in all of the first m rounds only then |
| ScaleOut.AvailabilityAfter | pkg/planner/actuators/scaling/scale_out.go:104-121 | then after m rounds the chance of a joint failure is the old one times (1 - average) to the number of names that were new |
| ScaleOut.AvailabilityGrows | pkg/planner/actuators/scaling/scale_out.go:104-121 | it stays a fraction, and a round lowers it exactly if it replaces a pod that is better than average while the others can fail together |
| ScaleOut.FactorsAreConsecutive | pkg/planner/actuators/scaling/scale_out.go:127-138 | with positive models the candidates come from consecutive rounds up to the last one, and have consecutive factors if no name is taken |
| ScaleOut.OvershootsByOne | pkg/planner/actuators/scaling/scale_out.go:101-104 | a candidate never has more than MaxPods + 1 pods, and that many exactly if it comes from the last possible round and no name was taken |
| ScaleOut.OvershootsIff | pkg/planner/actuators/scaling/scale_out.go:96-144 | some candidate exceeds MaxPods exactly if no name is taken, every round up to MaxPods + 1 pods is known to the models and does not meet the goal early, and the last one satisfies an objective |
| ScaleOut.OvershootsWhenItHelps | pkg/planner/actuators/scaling/scale_out.go:96-144 | with positive models: exactly if they know MaxPods + 1 replicas, MaxPods replicas do not meet the goal, and one more satisfies an objective |
| ScaleOut.ProposesTooManyPods | pkg/planner/actuators/scaling/scale_out.go:101-104 | a setting with MaxPods 1 in which every outcome of `findStates` proposes two pods |
| RmPod.Reforecast | pkg/planner/actuators/scaling/rm_pod.go:69-84 | forecasts for the remaining pods, and the utility they leave; fails exactly if a model is missing |
| RmPod.NextState | pkg/planner/actuators/scaling/rm_pod.go:46-93 | every running, real pod once, if enough pods remain and all models are known; otherwise nothing |
| RmPod.OfferMeans | pkg/planner/actuators/scaling/rm_pod.go:46-58 | nothing is proposed without a throughput objective; else what there is for one of those |
| RmPod.RemovableIff | pkg/planner/actuators/scaling/rm_pod.go:60-63 | pods that run and are not named as planned ones may be removed |
| RmPod.RemovalsAre | pkg/planner/actuators/scaling/rm_pod.go:60-89 | each of them is proposed once, if enough are left and all latency models are there |
| RmPod.RemovalLeadsTo | pkg/planner/actuators/scaling/rm_pod.go:64-84 | only the pod and the objectives differ; each objective is forecast for the pods left |
| RmPod.RemovalIsWorth | pkg/planner/actuators/scaling/rm_pod.go:68-88 | a removal names its pod and is worth the priority, times the availability left where that is an objective |
| Replicas.ComputeFactor | pkg/planner/actuators/scaling/scale_out.go:181-191 | the loop sums the changes of the plan's replica actions |
| Replicas.ReplicasAreConserved | pkg/planner/actuators/scaling/scale_out.go:181-191 | the net factor of a plan that replays, with its unbooked pods, is the difference in pods between its last state and start |
| Replicas.ScaleOutIsOrderly | pkg/planner/actuators/scaling/scale_out.go:128-175 | every scale-out answer accounts for its pods, costs nothing negative, and carries integer properties |
| Replicas.RmPodIsOrderly | pkg/planner/actuators/scaling/rm_pod.go:66-88 | every removal accounts for its pod and costs nothing negative |
| Replicas.ScaleOutKeepsHealth | pkg/planner/actuators/scaling/scale_out.go:146-179 | from a state with pods of fractional availability every answer of scale_out is orderly and leads to such states, names taken or not |
| Replicas.RmPodKeepsHealth | pkg/planner/actuators/scaling/rm_pod.go:46-93 | so does every answer of rm_pod, as long as MinPods is positive |
| Replicas.AllocationIsOrderly | pkg/planner/actuators/scaling/cpu_scale.go:310-355 | so does a proactive answer of scale_cpu, whose extra pod is unbooked |
| Replicas.ScalingTask | pkg/planner/astar/astar_planner.go:72-96 | so a task with scale_out, rm_pod, proactive scale_cpu and actuators that keep pods and availabilities is orderly in all states the planner may ask about |
| Replicas.OrderlyTask | pkg/planner/astar/astar_planner.go:77-96 | where every state to be asked about is healthy and the answers there are orderly, everything the planner relies on holds |
| Replicas.PlansConserve | pkg/planner/actuators/scaling/scale_out.go:181-210 | for every plan of such actuators that replays, Perform's factor, with the unbooked pods, leads to the number of pods the plan was made for, at least one; without them exactly if there are none |
| Replicas.PlanReplicas | pkg/planner/actuators/scaling/scale_out.go:181-210 | planning and then adding up the factor: the same, for whatever plan is made |
| CpuScale.RoundsUp | pkg/planner/actuators/scaling/cpu_scale.go:197-201 | a multiple of the rounding, strictly above its argument by at most one step |
| CpuScale.PickCPU | pkg/planner/actuators/scaling/cpu_scale.go:243-256 | the first model that is not passed over decides, 0 if all are; the pick is a positive multiple of the rounding, above the exact value by at most one step, enough for the guarded goal, and one step less is not |
| CpuScale.PassedOverIff | pkg/planner/actuators/scaling/cpu_scale.go:245-255 | a model is passed over exactly if it cannot serve the goal, or would serve the guarded goal with a thousandth of a CPU |
| CpuScale.EachCPUShrinks | pkg/planner/actuators/scaling/cpu_scale.go:83-86 | the predicted latency starts at the sum of the two constants, and each CPU shrinks what is above the floor by the same factor |
| CpuScale.ExactIsExact | pkg/planner/actuators/scaling/cpu_scale.go:83-86 | the inverted model predicts exactly the latency asked for |
| CpuScale.MoreIsFaster | pkg/planner/actuators/scaling/cpu_scale.go:83-86 | more CPU means strictly less predicted latency |
| CpuScale.PickIsSafe | pkg/planner/actuators/scaling/cpu_scale.go:249-255 | despite truncation the pick exceeds the exact value by at most one rounding step, and its predicted latency is below the guarded goal |
| PluginManager.PluginManagerServer.Register | pkg/api/plugins/v1alpha1/plugin_manager.go:36-68 | registers exactly if the version is supported, a client can be made and the name is free; else changes nothing |
| PluginManager.PluginManagerServer.Insert | pkg/api/plugins/v1alpha1/plugin_manager.go:58-60 | the second locked section alone: enters the plugin, whatever happened since the check |
| PluginManager.PluginManagerServer.CountRetries | pkg/api/plugins/v1alpha1/plugin_manager.go:75-88 | the loop counts not-ready plugins, resets ready ones, and notes those over the limit |
| PluginManager.PluginManagerServer.RefreshRegisteredPlugin | pkg/api/plugins/v1alpha1/plugin_manager.go:71-94 | afterwards the noted plugins are gone with their counters, all others are counted |
| PluginManager.RefreshedIs | pkg/api/plugins/v1alpha1/plugin_manager.go:71-94 | what one refresh does to each name: who stays, with which client and which counter |
| PluginManager.RunKeepsOrder | pkg/api/plugins/v1alpha1/plugin_manager.go:71-94 | in every interleaving only registered names have counters |
| PluginManager.CounterCounts | pkg/api/plugins/v1alpha1/plugin_manager.go:75-88 | a counter is the number of not-ready refreshes since its plugin entered or was last ready, at most the limit |
| PluginManager.EvictedExactly | pkg/api/plugins/v1alpha1/plugin_manager.go:76-93 | a refresh evicts exactly at the (limit + 1)-th not-ready refresh in a row since the event that let the plugin in or last found it ready |

## Left out

- Solve: where ways of least height differ in cost, ties decide which of them is found; which ones ties can bring about is only worked out for forks (`CheapestIff`).
- ScaleOut.FactorsAreConsecutive: assumes that no round replaces a pod that is better than average, which may undo an availability objective that was satisfied; that this is exactly when availability falls is `AvailabilityGrows`.
- ScaleOut.OvershootsWhenItHelps: assumes positive latency models and objectives with their usual direction; `OvershootsIff` does not.
- NaN, infinities and rounding of `float64`, and the width of `int`, `int32` and `int64`: numbers are mathematical.
- Division by zero: models with a zero divisor, a goal of priority 0 and a state without pods are excluded where the source would divide by them; a logarithm of a number that is not positive has no particular value.
- Aliasing: states are values, so a copy and its original cannot share maps; a nil map is told apart from an empty one only for resources, annotations and tolerations.
- `heap.Init`: it is only ever called on an empty queue.
- Actuators that return fewer utilities or actions than considered candidates: the source would panic.
- Negative utilities: the search may then not end.
- `toDot`, logging, configuration parsing and validation, gRPC transport and conversion, Kubernetes clients, Prometheus and Mongo access.
- The updates of Deployments, ReplicaSets and Pods in `Perform`; only the replica factor is modelled.
- The rest of the CPU actuator: reading and writing resource values, and the objectives and resources of the states it proposes. Of its proactive states (`pkg/planner/actuators/scaling/cpu_scale.go:310-314`) only the pod they add is modelled, which does break the conservation of replicas.
- The power and RDT actuators: linear searches over external predictors.
- The intent controller, its monitors and its worker scheduling.
