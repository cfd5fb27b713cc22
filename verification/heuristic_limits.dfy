/**
 * Where the search of pkg/planner/astar/astar.go does not find the cheapest way, for want of an admissible heuristic.
 */
module HeuristicLimits {
  import opened Types
  import opened StateGraphs
  import opened AStar
  import opened StateGraphBuilder
  import opened Planner

  /** A search that can leave its start for a, at cost ca, or for b, at cost cb. */
  datatype Fork = Fork(p: Problem, a: Node, b: Node, ca: real, cb: real, act: Action, link: Action)

  function ToA(f: Fork): Edge
  {
    Edge(f.a, f.ca, f.act)
  }

  function ToB(f: Fork): Edge
  {
    Edge(f.b, f.cb, f.act)
  }

  function ToGoal(f: Fork): Edge
  {
    Edge(f.p.goal, 0.0, f.link)
  }

  /** e is the only edge out of n, though there may be several copies of it. */
  ghost predicate Only(p: Problem, n: Node, e: Edge)
  {
    e in Out(p.g, n) && forall other :: other in Out(p.g, n) ==> other == e
  }

  /** b leads to the goal for nothing; what a leads to is left open. */
  ghost predicate IsFork(f: Fork)
  {
    && f.p.start != f.a && f.p.start != f.b && f.p.start != f.p.goal
    && f.a != f.b && f.a != f.p.goal && f.b != f.p.goal && f.p.useUtility
    && ToA(f) in Out(f.p.g, f.p.start) && ToB(f) in Out(f.p.g, f.p.start)
    && (forall e :: e in Out(f.p.g, f.p.start) ==> e == ToA(f) || e == ToB(f))
    && Only(f.p, f.b, ToGoal(f))
  }

  function Guess(p: Problem, n: Node): real
  {
    p.h(n, p.goal, p.profiles)
  }

  /** a is the cheaper node to go to, but the heuristic lets it look dearer than going all the way through b. */
  ghost predicate Misleads(f: Fork)
  {
    && 0.0 <= f.ca < f.cb
    && f.cb + Guess(f.p, f.b) < f.ca + Guess(f.p, f.a) && f.cb + Guess(f.p, f.p.goal) < f.ca + Guess(f.p, f.a)
  }

  // ---------------------------------------------------------------- the steps of a search at a fork

  function AtA(f: Fork): (Node, real)
  {
    (f.a, f.ca + Guess(f.p, f.a))
  }

  function AtB(f: Fork): (Node, real)
  {
    (f.b, f.cb + Guess(f.p, f.b))
  }

  /** The start relaxed as far as the given edges were among those tried. */
  function Partly(f: Fork, withA: bool, withB: bool): Snapshot
  {
    var p, entry := f.p, Via(f.p.start, f.act);
    if withA && withB then
      Snapshot(map[p.start := 0.0, f.a := f.ca, f.b := f.cb], map[p.start := Done, f.a := entry, f.b := entry],
               multiset{AtA(f), AtB(f)})
    else if withA then
      Snapshot(map[p.start := 0.0, f.a := f.ca], map[p.start := Done, f.a := entry], multiset{AtA(f)})
    else if withB then
      Snapshot(map[p.start := 0.0, f.b := f.cb], map[p.start := Done, f.b := entry], multiset{AtB(f)})
    else
      Snapshot(map[p.start := 0.0], map[p.start := Done], multiset{})
  }

  function Forked(f: Fork): Snapshot
  {
    Partly(f, true, true)
  }

  /** The goal was labelled from n, of cost x, while `others` wait. */
  function Arrived(f: Fork, n: Node, x: real, others: multiset<(Node, real)>): Snapshot
  {
    Snapshot(Forked(f).score[f.p.goal := x], Forked(f).data[f.p.goal := Via(n, f.link)],
             others + multiset{(f.p.goal, x + Guess(f.p, f.p.goal))})
  }

  lemma StartRelaxesA(f: Fork, withA: bool, withB: bool)
    requires IsFork(f)
    ensures f.p.start in Partly(f, withA, withB).score
    ensures RelaxEdge(f.p, Partly(f, withA, withB), f.p.start, ToA(f)) == Partly(f, true, withB)
  {
    if withA {
      ToAAgain(f, withB);
    } else if withB {
      ToAAfterB(f);
    }
  }

  lemma ToAAgain(f: Fork, withB: bool)
    requires IsFork(f)
    ensures RelaxEdge(f.p, Partly(f, true, withB), f.p.start, ToA(f)) == Partly(f, true, withB)
  {
  }

  lemma ToAAfterB(f: Fork)
    requires IsFork(f)
    ensures RelaxEdge(f.p, Partly(f, false, true), f.p.start, ToA(f)) == Partly(f, true, true)
  {
    var c := Partly(f, false, true);
    assert c.score[f.a := f.ca] == Partly(f, true, true).score;
    assert c.data[f.a := Via(f.p.start, f.act)] == Partly(f, true, true).data;
    assert c.waiting + multiset{AtA(f)} == Partly(f, true, true).waiting;
  }

  lemma StartRelaxesB(f: Fork, withA: bool, withB: bool)
    requires IsFork(f)
    ensures f.p.start in Partly(f, withA, withB).score
    ensures RelaxEdge(f.p, Partly(f, withA, withB), f.p.start, ToB(f)) == Partly(f, withA, true)
  {
    if withB {
      ToBAgain(f, withA);
    } else if withA {
      ToBAfterA(f);
    }
  }

  lemma ToBAgain(f: Fork, withA: bool)
    requires IsFork(f)
    ensures RelaxEdge(f.p, Partly(f, withA, true), f.p.start, ToB(f)) == Partly(f, withA, true)
  {
  }

  lemma ToBAfterA(f: Fork)
    requires IsFork(f)
    ensures RelaxEdge(f.p, Partly(f, true, false), f.p.start, ToB(f)) == Partly(f, true, true)
  {
    var c := Partly(f, true, false);
    assert c.waiting + multiset{AtB(f)} == Partly(f, true, true).waiting;
  }

  lemma PartlyStarts(f: Fork)
    ensures f.p.start in Partly(f, false, false).score
  {
  }

  lemma {:induction false} StartRelaxed(f: Fork, i: nat)
    requires IsFork(f) && i <= |Out(f.p.g, f.p.start)|
    ensures var tried := Out(f.p.g, f.p.start)[..i];
            f.p.start in Partly(f, false, false).score
            && RelaxEdges(f.p, Partly(f, false, false), f.p.start, i) == Partly(f, ToA(f) in tried, ToB(f) in tried)
  {
    hide RelaxEdge, Partly;
    assert f.p.start in Partly(f, false, false).score by {
      PartlyStarts(f);
    }
    if i > 0 {
      var edges := Out(f.p.g, f.p.start);
      var before := edges[..i - 1];
      StartRelaxed(f, i - 1);
      assert edges[..i] == before + [edges[i - 1]];
      assert edges[i - 1] in edges;
      StartRelaxesA(f, ToA(f) in before, ToB(f) in before);
      StartRelaxesB(f, ToA(f) in before, ToB(f) in before);
    }
  }

  lemma FirstPop(p: Problem, n: Node, x: real)
    requires Pops(Initial(p), n, x)
    ensures n == p.start && x == 0.0 && Initial(p).waiting - multiset{(n, x)} == multiset{}
  {
  }

  lemma FirstStep(f: Fork, c: Snapshot)
    requires IsFork(f) && Next(f.p, Initial(f.p), c)
    ensures c == Forked(f)
  {
    hide Pops, RelaxEdges;
    var n, x :| Pops(Initial(f.p), n, x) && n != f.p.goal && Expands(f.p, Initial(f.p), n, x, c);
    FirstPop(f.p, n, x);
    var edges := Out(f.p.g, f.p.start);
    StartRelaxed(f, |edges|);
    assert edges[..|edges|] == edges;
    assert Initial(f.p).(waiting := multiset{}) == Partly(f, false, false);
  }

  lemma RelaxedTwice(p: Problem, c: Snapshot, u: Node, e: Edge)
    requires u in c.score && e.node != u
    ensures u in RelaxEdge(p, c, u, e).score && RelaxEdge(p, RelaxEdge(p, c, u, e), u, e) == RelaxEdge(p, c, u, e)
  {
  }

  /** Further copies of an edge change nothing. */
  lemma {:induction false} OnlyRelaxed(p: Problem, c: Snapshot, u: Node, e: Edge, i: nat)
    requires u in c.score && e.node != u && Only(p, u, e) && 0 < i <= |Out(p.g, u)|
    ensures RelaxEdges(p, c, u, i) == RelaxEdge(p, c, u, e)
  {
    hide RelaxEdge;
    assert Out(p.g, u)[i - 1] in Out(p.g, u);
    if i > 1 {
      OnlyRelaxed(p, c, u, e, i - 1);
      RelaxedTwice(p, c, u, e);
    } else {
      NothingRelaxed(p, c, u);
    }
  }

  /** One step from c expands a node n whose only edge is e: the outcome. */
  lemma OnlyStep(p: Problem, c: Snapshot, n: Node, x: real, e: Edge, c': Snapshot)
    requires n in c.score && e.node != n && Only(p, n, e) && Expands(p, c, n, x, c')
    ensures c' == RelaxEdge(p, c.(waiting := c.waiting - multiset{(n, x)}), n, e)
  {
    hide RelaxEdge, RelaxEdges;
    OnlyRelaxed(p, c.(waiting := c.waiting - multiset{(n, x)}), n, e, |Out(p.g, n)|);
  }

  lemma ExpandB(f: Fork, x: real, c: Snapshot)
    requires IsFork(f) && Expands(f.p, Forked(f), f.b, x, c) && (f.b, x) in Forked(f).waiting
    ensures x == f.cb + Guess(f.p, f.b) && c == Arrived(f, f.b, f.cb, multiset{AtA(f)})
  {
    hide RelaxEdges, Expands;
    OnlyStep(f.p, Forked(f), f.b, x, ToGoal(f), c);
    assert Forked(f).waiting - multiset{AtB(f)} == multiset{AtA(f)};
  }

  lemma SecondStep(f: Fork, c: Snapshot)
    requires IsFork(f) && Misleads(f) && Next(f.p, Forked(f), c)
    ensures c == Arrived(f, f.b, f.cb, multiset{AtA(f)})
  {
    hide Guess, Expands;
    var n, x :| Pops(Forked(f), n, x) && n != f.p.goal && Expands(f.p, Forked(f), n, x, c);
    assert AtB(f) in Forked(f).waiting;
    assert n == f.b;
    ExpandB(f, x, c);
  }

  lemma NoThirdStep(f: Fork, c: Snapshot)
    requires IsFork(f) && Misleads(f)
    ensures !Next(f.p, Arrived(f, f.b, f.cb, multiset{AtA(f)}), c)
  {
    var d := Arrived(f, f.b, f.cb, multiset{AtA(f)});
    assert (f.p.goal, f.cb + Guess(f.p, f.p.goal)) in d.waiting;
  }

  lemma GoalWaits(p: Problem, c: Snapshot, path: seq<Node>)
    requires TakesGoal(p, c, path)
    ensures exists x :: Pops(c, p.goal, x)
  {
  }

  lemma NotYet(f: Fork, c: Snapshot, path: seq<Node>)
    requires IsFork(f) && (c == Initial(f.p) || c == Forked(f))
    ensures !TakesGoal(f.p, c, path)
  {
    if TakesGoal(f.p, c, path) {
      GoalWaits(f.p, c, path);
    }
  }

  /** The goal cannot be taken before two nodes were expanded. */
  lemma BothSteps(f: Fork, cs: seq<Snapshot>, path: seq<Node>)
    requires IsFork(f) && IsRun(f.p, cs) && TakesGoal(f.p, cs[|cs| - 1], path)
    ensures |cs| > 2 && Next(f.p, Forked(f), cs[2])
  {
    hide IsFork, TakesGoal, Forked, Next, Initial;
    if |cs| == 1 {
      NotYet(f, cs[0], path);
    } else {
      assert Next(f.p, cs[0], cs[1]);
      FirstStep(f, cs[1]);
      if |cs| == 2 {
        NotYet(f, cs[1], path);
      } else {
        assert Next(f.p, cs[1], cs[2]);
      }
    }
  }

  lemma EndsArrived(f: Fork, cs: seq<Snapshot>, path: seq<Node>)
    requires IsFork(f) && Misleads(f) && IsRun(f.p, cs) && TakesGoal(f.p, cs[|cs| - 1], path)
    ensures cs[|cs| - 1] == Arrived(f, f.b, f.cb, multiset{AtA(f)})
  {
    hide IsFork, TakesGoal, Arrived, Forked, Misleads, Guess, Initial;
    BothSteps(f, cs, path);
    SecondStep(f, cs[2]);
    if |cs| > 3 {
      NoThirdStep(f, cs[3]);
    }
  }

  lemma ArrivedPath(f: Fork, n: Node, x: real, others: multiset<(Node, real)>, path: seq<Node>)
    requires IsFork(f) && (n == f.a || n == f.b) && TakesGoal(f.p, Arrived(f, n, x, others), path)
    ensures path == [f.p.start, n, f.p.goal]
  {
    hide Guess, Pops;
    var data := Arrived(f, n, x, others).data;
    ArrivedChain(f, n, x, others);
    forall k: nat | IsChain(data, f.p.goal, k, path) ensures k == 2 {
      RootedOnce(data, f.p.goal, k, 2);
    }
  }

  lemma ArrivedChain(f: Fork, n: Node, x: real, others: multiset<(Node, real)>)
    requires IsFork(f) && (n == f.a || n == f.b)
    ensures IsChain(Arrived(f, n, x, others).data, f.p.goal, 2, [f.p.start, n, f.p.goal])
  {
    hide Guess, Pops;
    var data := Arrived(f, n, x, others).data;
    assert Rooted(data, f.p.start, 0);
    assert Rooted(data, n, 1);
    assert Rooted(data, f.p.goal, 2);
    assert ChainNodes(data, n, 1) == [f.p.start] + [n];
    assert ChainNodes(data, f.p.goal, 2) == [f.p.start, n] + [f.p.goal];
  }

  /** Whatever the queue does about ties, every run that arrives at the goal arrives through b. */
  lemma ArrivesThroughB(f: Fork, cs: seq<Snapshot>, path: seq<Node>)
    requires IsFork(f) && Misleads(f) && IsRun(f.p, cs) && TakesGoal(f.p, cs[|cs| - 1], path)
    ensures path == [f.p.start, f.b, f.p.goal]
  {
    hide TakesGoal, Arrived, IsRun, IsFork, Misleads;
    EndsArrived(f, cs, path);
    ArrivedPath(f, f.b, f.cb, multiset{AtA(f)}, path);
  }

  /** And that way costs what b costs. */
  lemma ThroughBCosts(f: Fork, route: Walk)
    requires IsFork(f)
    requires IsRoute(f.p.g, f.p.start, route, f.p.goal) && Nodes(f.p.start, route) == [f.p.start, f.b, f.p.goal]
    ensures Cost(route, true) == f.cb
  {
    assert Length(route) == 2;
    var v := route.before;
    assert v.before.Stay?;
    assert Nodes(f.p.start, v) == Nodes(f.p.start, route)[..2] == [f.p.start, f.b];
    assert Nodes(f.p.start, v) == [f.p.start] + [v.edge.node];
    assert v.edge.node == Nodes(f.p.start, v)[1] == f.b;
    assert IsWalk(f.p.g, f.p.start, v) && End(f.p.start, v.before) == f.p.start;
    assert v.edge in Out(f.p.g, f.p.start);
    assert v.edge == ToB(f);
    assert route.edge in Out(f.p.g, f.b);
    assert Cost(v, true) == f.cb;
  }

  // ---------------------------------------------------------------- exactly when a fork misleads

  /** a leads to the goal for nothing as well. */
  ghost predicate IsSymmetric(f: Fork)
  {
    IsFork(f) && Only(f.p, f.a, ToGoal(f)) && 0.0 <= f.ca < f.cb
  }

  /** Going to b, and on from there to the goal, looks no dearer than going to a. */
  ghost predicate MayMislead(f: Fork)
  {
    f.cb + Guess(f.p, f.b) <= f.ca + Guess(f.p, f.a) && f.cb + Guess(f.p, f.p.goal) <= f.ca + Guess(f.p, f.a)
  }

  ghost predicate Finds(f: Fork, cs: seq<Snapshot>, path: seq<Node>)
  {
    IsRun(f.p, cs) && TakesGoal(f.p, cs[|cs| - 1], path)
  }

  lemma ExpandA(f: Fork, x: real, c: Snapshot)
    requires IsSymmetric(f) && Expands(f.p, Forked(f), f.a, x, c) && (f.a, x) in Forked(f).waiting
    ensures x == f.ca + Guess(f.p, f.a) && c == Arrived(f, f.a, f.ca, multiset{AtB(f)})
  {
    hide RelaxEdges, Expands;
    OnlyStep(f.p, Forked(f), f.a, x, ToGoal(f), c);
    assert Forked(f).waiting - multiset{AtA(f)} == multiset{AtB(f)};
  }

  lemma AfterForked(f: Fork, c: Snapshot)
    requires IsSymmetric(f) && Next(f.p, Forked(f), c)
    ensures || c == Arrived(f, f.a, f.ca, multiset{AtB(f)})
            || (c == Arrived(f, f.b, f.cb, multiset{AtA(f)}) && f.cb + Guess(f.p, f.b) <= f.ca + Guess(f.p, f.a))
  {
    hide Guess, Expands;
    var n, x :| Pops(Forked(f), n, x) && n != f.p.goal && Expands(f.p, Forked(f), n, x, c);
    assert AtA(f) in Forked(f).waiting;
    if n == f.a {
      ExpandA(f, x, c);
    } else {
      ExpandB(f, x, c);
    }
  }

  lemma ForkedScores(f: Fork)
    requires IsFork(f)
    ensures var score := Forked(f).score;
            f.a in score && score[f.a] == f.ca && f.b in score && score[f.b] == f.cb && f.p.goal !in score
  {
  }

  /** Once the goal is labelled from a, it stays so. */
  lemma AfterA(f: Fork, c: Snapshot)
    requires IsSymmetric(f) && Next(f.p, Arrived(f, f.a, f.ca, multiset{AtB(f)}), c)
    ensures c == Arrived(f, f.a, f.ca, multiset{})
  {
    hide Guess, RelaxEdges, Expands, Forked;
    var d := Arrived(f, f.a, f.ca, multiset{AtB(f)});
    ForkedScores(f);
    var n, x :| Pops(d, n, x) && n != f.p.goal && Expands(f.p, d, n, x, c);
    assert (n, x) == AtB(f);
    OnlyStep(f.p, d, n, x, ToGoal(f), c);
    assert d.waiting - multiset{AtB(f)} == Arrived(f, f.a, f.ca, multiset{}).waiting;
  }

  /** If a is expanded after all, the goal gets a label from there. */
  lemma AfterB(f: Fork, c: Snapshot)
    requires IsSymmetric(f) && Next(f.p, Arrived(f, f.b, f.cb, multiset{AtA(f)}), c)
    ensures c == Arrived(f, f.a, f.ca, multiset{(f.p.goal, f.cb + Guess(f.p, f.p.goal))})
  {
    hide Guess, RelaxEdges, RelaxEdge, Expands, Forked;
    var d := Arrived(f, f.b, f.cb, multiset{AtA(f)});
    ForkedScores(f);
    var n, x :| Pops(d, n, x) && n != f.p.goal && Expands(f.p, d, n, x, c);
    assert (n, x) == AtA(f);
    OnlyStep(f.p, d, n, x, ToGoal(f), c);
    assert d.waiting - multiset{AtA(f)} == multiset{(f.p.goal, f.cb + Guess(f.p, f.p.goal))};
    GoalImproves(f, d.(waiting := d.waiting - multiset{AtA(f)}));
  }

  lemma GoalImproves(f: Fork, d: Snapshot)
    requires IsSymmetric(f) && d == Arrived(f, f.b, f.cb, multiset{AtA(f)}).(waiting := d.waiting)
    ensures f.a in d.score && RelaxEdge(f.p, d, f.a, ToGoal(f)) == Arrived(f, f.a, f.ca, d.waiting)
  {
    hide Forked;
    ForkedScores(f);
    assert d.score[f.p.goal := f.ca] == Forked(f).score[f.p.goal := f.ca];
    assert d.data[f.p.goal := Via(f.a, f.link)] == Forked(f).data[f.p.goal := Via(f.a, f.link)];
  }

  lemma OnlyGoalLeft(f: Fork, n: Node, x: real, others: multiset<(Node, real)>, c: Snapshot)
    requires forall m, y :: (m, y) in others ==> m == f.p.goal
    ensures !Next(f.p, Arrived(f, n, x, others), c)
  {
  }

  lemma ArrivesThroughA(f: Fork, cs: seq<Snapshot>, path: seq<Node>)
    requires IsSymmetric(f) && Finds(f, cs, path) && !MayMislead(f)
    ensures path == [f.p.start, f.a, f.p.goal]
  {
    hide IsFork, TakesGoal, Arrived, Forked, Next, Guess, Initial, Only;
    var last := cs[|cs| - 1];
    var viaA, viaB := Arrived(f, f.a, f.ca, multiset{AtB(f)}), Arrived(f, f.b, f.cb, multiset{AtA(f)});
    var onlyGoal := multiset{(f.p.goal, f.cb + Guess(f.p, f.p.goal))};
    BothSteps(f, cs, path);
    AfterForked(f, cs[2]);
    if |cs| > 3 {
      assert Next(f.p, cs[2], cs[3]);
      if |cs| > 4 {
        assert Next(f.p, cs[3], cs[4]);
      }
      if cs[2] == viaA {
        AfterA(f, cs[3]);
        if |cs| > 4 {
          OnlyGoalLeft(f, f.a, f.ca, multiset{}, cs[4]);
        }
        ArrivedPath(f, f.a, f.ca, multiset{}, path);
      } else {
        AfterB(f, cs[3]);
        if |cs| > 4 {
          OnlyGoalLeft(f, f.a, f.ca, onlyGoal, cs[4]);
        }
        ArrivedPath(f, f.a, f.ca, onlyGoal, path);
      }
    } else if last == viaA {
      ArrivedPath(f, f.a, f.ca, multiset{AtB(f)}, path);
    } else {
      TakesGoalEarly(f, path);
    }
  }

  lemma TakesGoalEarly(f: Fork, path: seq<Node>)
    requires IsFork(f) && TakesGoal(f.p, Arrived(f, f.b, f.cb, multiset{AtA(f)}), path)
    ensures f.cb + Guess(f.p, f.p.goal) <= f.ca + Guess(f.p, f.a)
  {
    hide Guess, IsChain;
    var d := Arrived(f, f.b, f.cb, multiset{AtA(f)});
    assert AtA(f) in d.waiting;
  }

  /** A run through b. */
  lemma RunThroughB(f: Fork)
    requires IsSymmetric(f) && MayMislead(f)
    ensures Finds(f, [Initial(f.p), Forked(f), Arrived(f, f.b, f.cb, multiset{AtA(f)})], [f.p.start, f.b, f.p.goal])
  {
    var d := Arrived(f, f.b, f.cb, multiset{AtA(f)});
    StartStep(f);
    StepThroughB(f);
    ArrivedChain(f, f.b, f.cb, multiset{AtA(f)});
    GoalPops(f);
  }

  lemma GoalPops(f: Fork)
    requires IsFork(f) && MayMislead(f)
    ensures Pops(Arrived(f, f.b, f.cb, multiset{AtA(f)}), f.p.goal, f.cb + Guess(f.p, f.p.goal))
  {
    hide Guess;
  }

  lemma StartStep(f: Fork)
    requires IsFork(f)
    ensures Next(f.p, Initial(f.p), Forked(f))
  {
    hide RelaxEdges, Guess;
    var edges := Out(f.p.g, f.p.start);
    StartRelaxed(f, |edges|);
    assert edges[..|edges|] == edges;
    assert Initial(f.p).waiting - multiset{(f.p.start, 0.0)} == multiset{};
    assert Initial(f.p).(waiting := multiset{}) == Partly(f, false, false);
    assert Pops(Initial(f.p), f.p.start, 0.0);
    assert Expands(f.p, Initial(f.p), f.p.start, 0.0, Forked(f));
  }

  lemma StepThroughB(f: Fork)
    requires IsFork(f) && MayMislead(f)
    ensures Next(f.p, Forked(f), Arrived(f, f.b, f.cb, multiset{AtA(f)}))
  {
    hide RelaxEdges, Guess;
    var c, x := Forked(f), f.cb + Guess(f.p, f.b);
    assert Pops(c, f.b, x);
    var d := RelaxEdges(f.p, c.(waiting := c.waiting - multiset{(f.b, x)}), f.b, |Out(f.p.g, f.b)|);
    assert Expands(f.p, c, f.b, x, d);
    ExpandB(f, x, d);
  }

  /** At a symmetric fork every run takes the cheaper way exactly if b, or the goal behind it, looks dearer than a. */
  lemma CheapestIff(f: Fork)
    requires IsSymmetric(f)
    ensures (forall cs, path :: Finds(f, cs, path) ==> path == [f.p.start, f.a, f.p.goal]) <==> !MayMislead(f)
  {
    hide Finds, MayMislead, Arrived, Forked, Initial;
    if MayMislead(f) {
      RunThroughB(f);
    }
    forall cs, path | Finds(f, cs, path) && !MayMislead(f) ensures path == [f.p.start, f.a, f.p.goal] {
      ArrivesThroughA(f, cs, path);
    }
  }

  // ---------------------------------------------------------------- such a fork, with the distance as heuristic

  /** A state with the given latency. */
  function Latent(key: string, latency: real): State
  {
    State(Intent(key, 1.0, "ns/app", "Deployment", true, map["p99" := latency], None), map[], map[], None, None)
  }

  const FASTER := map["p99" := Profile("p99", Latency, "", true, false, "")]

  lemma LatentMeets(key: string, latency: real, goal: string, bound: real)
    ensures IsBetter(Latent(key, latency), Latent(goal, bound), FASTER) <==> latency <= bound
  {
    var one, other := Latent(key, latency), Latent(goal, bound);
    assert "p99" in one.intent.objectives;
    assert Meets(one, other, FASTER, "p99") <==> latency <= bound;
  }

  lemma LatentDistance(sqrt: real -> real, key: string, latency: real, goal: string, bound: real)
    requires IsRoot(sqrt) && latency > bound
    ensures Distance(sqrt, Latent(key, latency), Latent(goal, bound), FASTER) == sqrt(Square(latency - bound))
  {
    hide IsBetter, Square;
    var one, other := Latent(key, latency), Latent(goal, bound);
    LatentMeets(key, latency, goal, bound);
    assert SquaredGaps(one, other) == map["p99" := Square(latency - bound)];
    Folds.SumAdds(map[], "p99", Square(latency - bound));
  }

  method BuildFork(s: Node, a: Node, b: Node, g: Node, ca: real, cb: real, act: Action) returns (sg: StateGraph)
    requires Distinct([s, a, b, g]) && 0.0 <= ca && 0.0 <= cb
    ensures Out(sg.successors, s) == [Edge(a, ca, act), Edge(b, cb, act)]
    ensures Out(sg.successors, a) == Out(sg.successors, b) == [Edge(g, 0.0, OPPORTUNISTIC)]
    ensures NonNegative(sg.successors, true)
  {
    var nodes := [s, a, b, g];
    assert nodes[0] != nodes[1] && nodes[0] != nodes[2] && nodes[1] != nodes[2];
    sg := new StateGraph();
    sg.AddEdge(s, a, ca, act);
    sg.AddEdge(s, b, cb, act);
    sg.AddEdge(a, g, 0.0, OPPORTUNISTIC);
    sg.AddEdge(b, g, 0.0, OPPORTUNISTIC);
  }

  /**
   * The search takes the dearer of two ways: the state it avoids is far from the goal by the distance the planner
   * uses, although one free step leads there, and another free step on to the goal. No run of it does otherwise.
   */
  method TakesTheDearerWay(sqrt: real -> real, act: Action)
    returns (sg: StateGraph, path: seq<Node>, actions: seq<Action>, ghost f: Fork)
    requires IsRoot(sqrt)
    ensures f.p == Problem(sg.successors, f.p.start, f.p.goal, H(sqrt), true, FASTER) && IsSymmetric(f)
    ensures Solved(f.p, path, actions) && path == [f.p.start, f.b, f.p.goal]
    ensures forall route :: IsRoute(f.p.g, f.p.start, route, f.p.goal) && Nodes(f.p.start, route) == path ==>
              Cost(route, true) == f.cb > f.ca
    ensures forall cs, other :: Finds(f, cs, other) ==> other == path
  {
    hide IsRoot, Distance, NoDearer, NoHigher, IsRun, TakesGoal;
    var s, g := Node(0, Latent("start", 20.0)), Node(1, Latent("goal", 0.0));
    var a, b := Node(2, Latent("a", 10.0)), Node(3, Latent("b", 1.0));
    var far, near := sqrt(Square(10.0)), sqrt(Square(1.0));
    RootsDiffer(sqrt);
    LatentDistance(sqrt, "a", 10.0, "goal", 0.0);
    LatentDistance(sqrt, "b", 1.0, "goal", 0.0);
    DistanceSign(sqrt, g.value, g.value, FASTER);
    var cb := (far - near) / 2.0;
    sg := BuildFork(s, a, b, g, 0.0, cb, act);
    f := Fork(Problem(sg.successors, s, g, H(sqrt), true, FASTER), a, b, 0.0, cb, act, OPPORTUNISTIC);
    assert IsSymmetric(f);
    ForkIsReachable(f);
    path, actions := Solve(sg, s, g, H(sqrt), true, FASTER);
    ghost var run :| EndsWith(f.p, run, path);
    ArrivesThroughB(f, run, path);
    forall route | IsRoute(f.p.g, f.p.start, route, f.p.goal) && Nodes(f.p.start, route) == path
      ensures Cost(route, true) == f.cb
    {
      ThroughBCosts(f, route);
    }
    forall cs, other | Finds(f, cs, other) ensures other == path {
      ArrivesThroughB(f, cs, other);
    }
  }

  lemma RootsDiffer(sqrt: real -> real)
    requires IsRoot(sqrt)
    ensures 0.0 < sqrt(Square(1.0)) < sqrt(Square(10.0))
  {
    assert Square(1.0) == 1.0 && Square(10.0) == 100.0;
    assert sqrt(0.0) < sqrt(1.0) < sqrt(100.0);
  }

  lemma ForkIsReachable(f: Fork)
    requires IsFork(f)
    ensures Reachable(f.p.g, f.p.start, f.p.goal)
  {
    var toB := Then(Stay, ToB(f));
    assert End(f.p.start, Stay) == f.p.start && IsWalk(f.p.g, f.p.start, Stay);
    assert IsWalk(f.p.g, f.p.start, toB);
    assert IsRoute(f.p.g, f.p.start, Then(toB, ToGoal(f)), f.p.goal);
  }

  // ---------------------------------------------------------------- a plan that is not the cheapest

  const ORIGIN := Latent("start", 20.0)
  const TARGET := Latent("goal", 5.0)
  const FAR := Latent("far", 10.0)
  const NEAR := Latent("near", 4.0)
  const BEYOND := Latent("beyond", 3.0)

  /**
   * From the origin one can go to a far state for nothing, and from there on for nothing; or to a near state at a
   * price.
   */
  function Detouring(price: real, act: Action): Actuators
  {
    (round: nat, s: State, goal: State, profiles: Profiles) =>
      if s == ORIGIN then [Answer([FAR, NEAR], [0.0, price], [act, act])]
      else if s == FAR then [Answer([BEYOND], [0.0], [act])]
      else []
  }

  function DetourTask(price: real, act: Action): Task
  {
    Task(Config(10, 5, 0), Detouring(price, act), ORIGIN, TARGET, FASTER)
  }

  lemma OriginOffers(price: real, act: Action, round: nat, e: Edge)
    requires Offered(DetourTask(price, act), round, ORIGIN, e)
    ensures || (e.node.value == FAR && e.utility == 0.0 && e.action == act)
            || (e.node.value == NEAR && e.utility == price && e.action == act)
  {
    var t := DetourTask(price, act);
    var j: nat, i: nat :| OfferedAt(t, round, j, i, ORIGIN, e);
    assert Ask(t, round, ORIGIN) == [Answer([FAR, NEAR], [0.0, price], [act, act])];
  }

  lemma OthersOffer(price: real, act: Action, round: nat, s: State, e: Edge)
    requires Offered(DetourTask(price, act), round, s, e) && s != ORIGIN
    ensures s == FAR && e.node.value == BEYOND
  {
  }

  /** What can be discovered. */
  lemma Discovered(price: real, act: Action, g: Growth, i: nat)
    requires Grown(DetourTask(price, act), g) && 2 <= i < |g.nodes|
    ensures g.nodes[i].value in {FAR, NEAR, BEYOND}
  {
    hide IsBetter, Offered, Askable, Layered, AllLinked, DetourTask, NoTwins;
    var t := DetourTask(price, act);
    assert HasParent(g, i);
    var j: nat, e :| j < i && j != 1 && e in Out(g.succ, g.nodes[j]) && e.node == g.nodes[i]
                     && g.depth[i] == g.depth[j] + 1;
    assert EdgeOk(t, g, g.nodes[j], e);
    var s := g.nodes[j].value;
    if s == ORIGIN {
      OriginOffers(price, act, Rank(g.nodes[j]), e);
    } else {
      OthersOffer(price, act, Rank(g.nodes[j]), s, e);
    }
  }

  lemma AtMostFive(price: real, act: Action, g: Growth)
    requires Grown(DetourTask(price, act), g)
    ensures |g.nodes| <= 5
  {
    hide IsBetter, EdgesOk, AllHaveParents, Layered, AllLinked;
    if |g.nodes| > 5 {
      var x, y, z, w := g.nodes[2].value, g.nodes[3].value, g.nodes[4].value, g.nodes[5].value;
      forall i | 2 <= i < |g.nodes| ensures g.nodes[i].value in {FAR, NEAR, BEYOND} {
        Discovered(price, act, g, i);
      }
      TooManyOfThree(FAR, NEAR, BEYOND, x, y, z, w);
    }
  }

  lemma TooManyOfThree<T>(a: T, b: T, c: T, x: T, y: T, z: T, w: T)
    requires x in {a, b, c} && y in {a, b, c} && z in {a, b, c} && w in {a, b, c}
    ensures x == y || x == z || x == w || y == z || y == w || z == w
  {
  }

  lemma AllExpanded(price: real, act: Action, g: Growth)
    requires Grown(DetourTask(price, act), g) && (g.expanded + 1 == |g.nodes| || |g.nodes| >= 10)
    ensures 0 < g.expanded == |g.nodes| - 1
  {
    hide IsBetter, EdgesOk, AllHaveParents, Layered, AllLinked;
    AtMostFive(price, act, g);
  }

  /** The node of a state that was proposed for an expanded node, other than the goal or the start. */
  lemma HeardNode(t: Task, g: Growth, src: Node, j: nat, i: nat) returns (e: Edge)
    requires Grown(t, g) && Heard(t, g, g.expanded) && g.expanded == |g.nodes| - 1 && Known(g.nodes, src)
      && src.address != 1
    requires var answers := Ask(t, Rank(src), src.value);
             j < |answers| && i < Considered(t.cfg, answers[j])
             && answers[j].candidates[i] != t.start && answers[j].candidates[i] != t.goal
    ensures var a := Ask(t, Rank(src), src.value)[j];
            && i < |a.utils| && i < |a.actions| && e in Out(g.succ, src)
            && e.node.value == a.candidates[i] && e.utility == a.utils[i] && e.action == a.actions[i]
    ensures Known(g.nodes, e.node) && 2 <= e.node.address
  {
    hide IsBetter, Proposed, NoTwins, AllHaveParents, Layered, AllLinked;
    var r := Rank(src);
    assert HeardOne(t, g, r) && g.nodes[Address(r)] == src;
    var a := Ask(t, r, src.value)[j];
    assert HasEdgeFor(g.succ, src, a, i);
    e :| e in Out(g.succ, src) && e.node.value == a.candidates[i] && e.utility == a.utils[i]
      && e.action == a.actions[i];
    assert EdgeOk(t, g, src, e);
  }

  lemma TargetsMet()
    ensures !IsBetter(ORIGIN, TARGET, FASTER) && !IsBetter(FAR, TARGET, FASTER)
    ensures IsBetter(NEAR, TARGET, FASTER) && IsBetter(BEYOND, TARGET, FASTER)
  {
    hide IsBetter;
    LatentMeets("start", 20.0, "goal", 5.0);
    LatentMeets("far", 10.0, "goal", 5.0);
    LatentMeets("near", 4.0, "goal", 5.0);
    LatentMeets("beyond", 3.0, "goal", 5.0);
  }

  ghost function DetourFork(sqrt: real -> real, price: real, act: Action, succ: Successors, far: Node, near: Node): Fork
    requires IsRoot(sqrt)
  {
    Fork(PlanProblem(DetourTask(price, act), sqrt, succ), far, near, 0.0, price, act, DONE)
  }

  lemma GuessesMislead(sqrt: real -> real, price: real, act: Action, succ: Successors, far: Node, near: Node)
    requires IsRoot(sqrt) && far.value == FAR && near.value == NEAR && 0.0 < price < sqrt(25.0)
    ensures Misleads(DetourFork(sqrt, price, act, succ, far, near))
  {
    hide Distance, IsBetter, Square;
    TargetsMet();
    assert FAR.intent.objectives["p99"] == 10.0;
    LatentDistance(sqrt, "far", 10.0, "goal", 5.0);
    DistanceSign(sqrt, NEAR, TARGET, FASTER);
    SquareIs(5.0);
  }

  /** All there is to the graph: the way over the far state, which is free, and the fork it is one branch of. */
  lemma DetourGraph(sqrt: real -> real, price: real, act: Action, g: Growth) returns (far: Node, near: Node, free: Walk)
    requires IsRoot(sqrt) && 0.0 < price < sqrt(25.0)
    requires var t := DetourTask(price, act);
             Grown(t, g) && Heard(t, g, g.expanded) && (g.expanded + 1 == |g.nodes| || |g.nodes| >= 10)
    ensures far.value == FAR && near.value == NEAR && near in g.nodes && MeetsGoal(DetourTask(price, act), near)
    ensures IsFork(DetourFork(sqrt, price, act, g.succ, far, near))
    ensures IsRoute(g.succ, StartNode(DetourTask(price, act)), free, EndNode(DetourTask(price, act)))
      && Cost(free, true) == 0.0
  {
    hide IsBetter, Grown, Heard, Proposed;
    var t := DetourTask(price, act);
    var s := StartNode(t);
    AllExpanded(price, act, g);
    GrownShape(t, g);
    TargetsMet();
    var toFar := HeardNode(t, g, s, 0, 0);
    var toNear := HeardNode(t, g, s, 0, 1);
    far, near := toFar.node, toNear.node;
    assert Ask(t, Rank(far), FAR) == [Answer([BEYOND], [0.0], [act])];
    var onwards := HeardNode(t, g, far, 0, 0);
    assert onwards.utility == 0.0;
    LinkOf(t, g, near);
    LinkOf(t, g, onwards.node);
    StartLeads(price, act, g, toFar, toNear);
    NearLeads(price, act, g, near);
    assert IsWalk(g.succ, s, Stay) && End(s, Stay) == s;
    var first := Then(Stay, toFar);
    assert IsWalk(g.succ, s, first);
    var second := Then(first, onwards);
    assert IsWalk(g.succ, s, second);
    free := Then(second, GoalLink(t));
    assert Cost(first, true) == 0.0 && Cost(second, true) == 0.0;
  }

  lemma LinkOf(t: Task, g: Growth, n: Node)
    requires Grown(t, g) && Known(g.nodes, n) && 2 <= n.address && IsBetter(n.value, t.goal, t.profiles)
    ensures n in g.nodes && MeetsGoal(t, n) && GoalLink(t) in Out(g.succ, n)
  {
    hide IsBetter, NoTwins, EdgesOk, AllHaveParents, Layered;
    assert g.nodes[n.address] in g.nodes;
  }

  lemma StartLeads(price: real, act: Action, g: Growth, toFar: Edge, toNear: Edge)
    requires var t := DetourTask(price, act);
             Grown(t, g) && Known(g.nodes, toFar.node) && Known(g.nodes, toNear.node)
    requires toFar.node.value == FAR && toFar.utility == 0.0 && toFar.action == act && 2 <= toFar.node.address
    requires toNear.node.value == NEAR && toNear.utility == price && toNear.action == act
      && 2 <= toNear.node.address
    ensures forall e :: e in Out(g.succ, StartNode(DetourTask(price, act))) ==> e == toFar || e == toNear
  {
    hide IsBetter, AllHaveParents, Layered, AllLinked, Askable, Offered;
    var t := DetourTask(price, act);
    forall e | e in Out(g.succ, StartNode(t)) ensures e == toFar || e == toNear {
      assert EdgeOk(t, g, StartNode(t), e);
      OriginOffers(price, act, 0, e);
      assert e.node.value != t.start && e.node.value != t.goal;
    }
  }

  lemma NearLeads(price: real, act: Action, g: Growth, near: Node)
    requires Grown(DetourTask(price, act), g) && near.value == NEAR
    ensures forall e :: e in Out(g.succ, near) ==> e == GoalLink(DetourTask(price, act))
  {
    hide IsBetter, AllHaveParents, Layered, AllLinked, NoTwins, Askable, Offered;
    var t := DetourTask(price, act);
    forall e | e in Out(g.succ, near) ensures e == GoalLink(t) {
      assert EdgeOk(t, g, near, e);
      if IsStep(t, near, e) {
        OthersOffer(price, act, Rank(near), NEAR, e);
      }
    }
  }

  /**
   * As long as the near state costs less than the far one looks away from the goal, whatever plan is made for this
   * task, the goal is in sight, and the way taken is dearer than another one.
   */
  lemma DetourIsTaken(sqrt: real -> real, price: real, act: Action, why: Account) returns (free: Walk)
    requires IsRoot(sqrt) && 0.0 < price < sqrt(25.0)
    requires var t := DetourTask(price, act);
             && Generated(t, why.g, why.sc, why.nodes, why.base)
             && (GoalInSight(t, why) ==> why.graph == why.base && Searched(t, sqrt, why))
    ensures var t := DetourTask(price, act);
            && GoalInSight(t, why) && IsRoute(why.graph, StartNode(t), free, EndNode(t))
            && 0.0 == Cost(free, true) < Cost(why.route, true) == price
  {
    hide IsBetter, Grown, Heard, IsFork, IsRun, TakesGoal, NoDearer, NoHigher, Misleads;
    var t := DetourTask(price, act);
    var far, near;
    far, near, free := DetourGraph(sqrt, price, act, why.g);
    TargetsMet();
    var f := DetourFork(sqrt, price, act, why.g.succ, far, near);
    GuessesMislead(sqrt, price, act, why.g.succ, far, near);
    ArrivesThroughB(f, why.run, Nodes(StartNode(t), why.route));
    ThroughBCosts(f, why.route);
  }

  /** So planning does not find the cheapest way, even with the goal in sight. */
  method PlansTheDearerWay(sqrt: real -> real, price: real, act: Action)
    returns (plan: seq<Action>, ghost why: Account, ghost free: Walk)
    requires IsRoot(sqrt) && 0.0 < price < sqrt(25.0)
    ensures var t := DetourTask(price, act);
            && Generated(t, why.g, why.sc, why.nodes, why.base) && GoalInSight(t, why) && why.graph == why.base
            && PlanFound(t, why, plan) && Searched(t, sqrt, why)
            && IsRoute(why.graph, StartNode(t), free, EndNode(t)) && Cost(free, true) < Cost(why.route, true)
  {
    hide IsRoot, Generated, GoalInSight, PlanFound, Searched, DetourTask, IsRoute;
    DetourIsPriced(price, act);
    plan, why := CreatePlan(DetourTask(price, act), sqrt);
    free := DetourIsTaken(sqrt, price, act, why);
  }

  lemma DetourIsPriced(price: real, act: Action)
    requires price >= 0.0
    ensures AllWellFormed(DetourTask(price, act)) && PricesNonNegative(DetourTask(price, act))
  {
    hide Askable;
  }
}
