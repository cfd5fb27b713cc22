/** The states of pkg/common/types.go and the way they are compared. */
module Types {
  import opened Folds

  datatype Option<+T> = None | Some(value: T)

  datatype ProfileType = Obsolete | Latency | Availability | Throughput | Power

  datatype Profile = Profile(key: string, profileType: ProfileType, query: string,
                             minimize: bool, external: bool, address: string)

  type Profiles = map<string, Profile>

  datatype Intent = Intent(key: string, priority: real, targetKey: string, targetKind: string, activelyManaged: bool,
                           objectives: map<string, real>, tolerations: Option<map<string, real>>)

  datatype PodState = PodState(availability: real, nodeName: string, state: string, qosClass: string)

  /** Equality of two such values is structural, like reflect.DeepEqual; None stands for a nil map. */
  datatype State = State(intent: Intent, currentPods: map<string, PodState>,
                         currentData: map<string, map<string, real>>,
                         resources: Option<map<string, int>>, annotations: Option<map<string, string>>)

  /** A missing profile reads as the zero Profile. */
  function TypeOf(profiles: Profiles, k: string): ProfileType
  {
    if k in profiles then profiles[k].profileType else Obsolete
  }

  predicate Minimized(profiles: Profiles, k: string)
  {
    k in profiles && profiles[k].minimize
  }

  /** A missing objective reads as 0.0. */
  function Objective(s: State, k: string): real
  {
    if k in s.intent.objectives then s.intent.objectives[k] else 0.0
  }

  /** Everything but the intent's activelyManaged flag and its tolerations survives a copy. */
  function DeepCopy(one: State): State
  {
    one.(intent := one.intent.(activelyManaged := false, tolerations := None))
  }

  /** Objective k of `one` is at least as good as the same objective of `another`. */
  predicate Meets(one: State, another: State, profiles: Profiles, k: string)
  {
    if Minimized(profiles, k) then Objective(one, k) <= Objective(another, k)
    else Objective(one, k) >= Objective(another, k)
  }

  predicate IsBetter(one: State, another: State, profiles: Profiles)
  {
    && |one.intent.objectives| == |another.intent.objectives|
    && one.intent.objectives != map[]
    && forall k | k in one.intent.objectives :: Meets(one, another, profiles, k)
  }

  /** The loop of IsBetter, whatever order the map is walked in. */
  method CompareObjectives(one: State, another: State, profiles: Profiles) returns (res: bool)
    ensures res <==> IsBetter(one, another, profiles)
  {
    if |one.intent.objectives| != |another.intent.objectives| {
      return false;
    }
    res := false;
    var todo := one.intent.objectives.Keys;
    while todo != {}
      invariant todo <= one.intent.objectives.Keys
      invariant res <==> todo != one.intent.objectives.Keys
      invariant forall k :: k in one.intent.objectives.Keys - todo ==> Meets(one, another, profiles, k)
    {
      var k :| k in todo;
      todo := todo - {k};
      var v := one.intent.objectives[k];
      if Minimized(profiles, k) {
        if v <= Objective(another, k) {
          res := true;
        } else {
          return false;
        }
      } else {
        if v >= Objective(another, k) {
          res := true;
        } else {
          return false;
        }
      }
    }
  }

  function Square(x: real): real
  {
    x * x
  }

  function SquaredGaps(one: State, another: State): map<string, real>
  {
    map k | k in one.intent.objectives :: Square(one.intent.objectives[k] - Objective(another, k))
  }

  function SquaresSum(one: State, another: State): real
  {
    Sum(SquaredGaps(one, another))
  }

  /** What Distance relies on of math.Sqrt: it starts at 0 and grows strictly. */
  ghost predicate IsRoot(sqrt: real -> real)
  {
    sqrt(0.0) == 0.0 && forall x, y :: 0.0 <= x < y ==> sqrt(x) < sqrt(y)
  }

  lemma SquareSign(x: real)
    ensures Square(x) >= 0.0 && (Square(x) == 0.0 <==> x == 0.0)
  {
    ProductSign(x, x, Square(x));
  }

  lemma SquaresSumFacts(one: State, another: State)
    ensures SquaresSum(one, another) >= 0.0
    ensures SquaresSum(one, another) == 0.0 <==>
              forall k :: k in one.intent.objectives ==> one.intent.objectives[k] == Objective(another, k)
  {
    var gaps := SquaredGaps(one, another);
    forall k | k in gaps ensures gaps[k] >= 0.0 {
      SquareSign(one.intent.objectives[k] - Objective(another, k));
    }
    SumOfNonNegatives(gaps);
    forall k | k in gaps ensures gaps[k] == 0.0 <==> one.intent.objectives[k] == Objective(another, k) {
      SquareSign(one.intent.objectives[k] - Objective(another, k));
    }
  }

  function Distance(sqrt: real -> real, one: State, another: State, profiles: Profiles): real
    requires IsRoot(sqrt)
  {
    var sum := SquaresSum(one, another);
    if IsBetter(one, another, profiles) && sum != 0.0 then
      SquaresSumFacts(one, another);
      assert sqrt(0.0) < sqrt(sum);
      NegatedReciprocal(sqrt(sum))
    else
      sqrt(sum)
  }

  function NegatedReciprocal(x: real): real
    requires x != 0.0
  {
    -1.0 / x
  }

  lemma NegatedReciprocalGrows(a: real, b: real)
    requires 0.0 < a < b
    ensures NegatedReciprocal(a) < NegatedReciprocal(b) < 0.0
  {
    var c, d := 1.0 / a, 1.0 / b;
    assert c * a == 1.0 && d * b == 1.0;
    if c <= d {
      ProductSign(d, b - a, d * (b - a));
      ProductSign(d - c, a, (d - c) * a);
    }
    assert NegatedReciprocal(a) == -c && NegatedReciprocal(b) == -d;
  }

  /** The first loop of Distance, whatever order the map is walked in. */
  method SumSquares(one: State, another: State) returns (squaresSum: real)
    ensures squaresSum == SquaresSum(one, another)
  {
    squaresSum := 0.0;
    var todo := one.intent.objectives.Keys;
    ghost var gaps := SquaredGaps(one, another);
    while todo != {}
      invariant todo <= gaps.Keys
      invariant squaresSum == Sum(gaps - todo)
    {
      var k :| k in todo;
      SumAdds(gaps - todo, k, gaps[k]);
      assert (gaps - todo)[k := gaps[k]] == gaps - (todo - {k});
      squaresSum := squaresSum + Square(one.intent.objectives[k] - Objective(another, k));
      todo := todo - {k};
    }
    assert gaps - {} == gaps;
  }

  method ComputeDistance(sqrt: real -> real, one: State, another: State, profiles: Profiles) returns (d: real)
    requires IsRoot(sqrt)
    ensures d == Distance(sqrt, one, another, profiles)
  {
    var squaresSum := SumSquares(one, another);
    var better := CompareObjectives(one, another, profiles);
    if better && squaresSum != 0.0 {
      SquaresSumFacts(one, another);
      assert sqrt(0.0) < sqrt(squaresSum);
      return NegatedReciprocal(sqrt(squaresSum));
    }
    return sqrt(squaresSum);
  }

  /** A goal-meeting state is never at a positive distance, every other one never at a negative distance. */
  lemma DistanceSign(sqrt: real -> real, one: State, another: State, profiles: Profiles)
    requires IsRoot(sqrt)
    ensures IsBetter(one, another, profiles) ==> Distance(sqrt, one, another, profiles) <= 0.0
    ensures !IsBetter(one, another, profiles) ==> Distance(sqrt, one, another, profiles) >= 0.0
    ensures Distance(sqrt, another, another, profiles) == 0.0
  {
    SquaresSumFacts(one, another);
    SquaresSumFacts(another, another);
    var sum := SquaresSum(one, another);
    if sum != 0.0 {
      assert sqrt(0.0) < sqrt(sum);
      NegatedReciprocalGrows(sqrt(sum), sqrt(sum) + 1.0);
    }
  }

  /** Among goal-meeting states away from the goal the closer one has the smaller distance, among the others too. */
  lemma CloserIsSmaller(sqrt: real -> real, one: State, two: State, goal: State, profiles: Profiles)
    requires IsRoot(sqrt) && 0.0 < SquaresSum(one, goal) < SquaresSum(two, goal)
    requires IsBetter(one, goal, profiles) <==> IsBetter(two, goal, profiles)
    ensures Distance(sqrt, one, goal, profiles) < Distance(sqrt, two, goal, profiles)
  {
    assert sqrt(0.0) < sqrt(SquaresSum(one, goal)) < sqrt(SquaresSum(two, goal));
    NegatedReciprocalGrows(sqrt(SquaresSum(one, goal)), sqrt(SquaresSum(two, goal)));
  }

  predicate LessResources(one: State, another: State)
  {
    && one.resources.Some? && one.resources.value != map[]
    && another.resources.Some?
    && forall k | k in one.resources.value ::
         k in another.resources.value && one.resources.value[k] <= another.resources.value[k]
  }

  /** The loop of LessResources, whatever order the map is walked in. */
  method CompareResources(one: State, another: State) returns (res: bool)
    ensures res <==> LessResources(one, another)
  {
    var mine := if one.resources.Some? then one.resources.value else map[];
    var theirs := if another.resources.Some? then another.resources.value else map[];
    res := false;
    var todo := mine.Keys;
    while todo != {}
      invariant todo <= mine.Keys
      invariant res <==> todo != mine.Keys
      invariant forall k :: k in mine.Keys - todo ==> k in theirs && mine[k] <= theirs[k]
    {
      var k :| k in todo;
      todo := todo - {k};
      if k !in theirs {
        return false;
      }
      if mine[k] <= theirs[k] {
        res := true;
      } else {
        return false;
      }
    }
  }

  // ---------------------------------------------------------------- what the comparisons mean, objective by objective

  function WithObjective(s: State, k: string, v: real): State
  {
    s.(intent := s.intent.(objectives := s.intent.objectives[k := v]))
  }

  /** Exactly the states with objectives are as good as themselves. */
  lemma BetterThanItself(s: State, another: State, profiles: Profiles)
    requires s.intent.objectives == another.intent.objectives
    ensures IsBetter(s, another, profiles) <==> s.intent.objectives != map[]
  {
  }

  lemma BetterIsComparable(a: State, b: State, profiles: Profiles)
    requires IsBetter(a, b, profiles)
    ensures |a.intent.objectives| == |b.intent.objectives| > 0
  {
  }

  lemma BetterIsTransitive(a: State, b: State, c: State, profiles: Profiles)
    requires IsBetter(a, b, profiles) && IsBetter(b, c, profiles)
    requires a.intent.objectives.Keys == b.intent.objectives.Keys
    ensures IsBetter(a, c, profiles)
  {
    forall k | k in a.intent.objectives ensures Meets(a, c, profiles, k) {
      assert Meets(a, b, profiles, k) && Meets(b, c, profiles, k);
    }
  }

  /** What one objective decides: at the other state's value it decides nothing, elsewhere its direction counts. */
  lemma BetterByOne(one: State, another: State, profiles: Profiles, k: string, v: real)
    requires k in one.intent.objectives
    ensures var bound := if k in another.intent.objectives then another.intent.objectives[k] else 0.0;
            IsBetter(WithObjective(one, k, v), another, profiles) <==>
              && IsBetter(WithObjective(one, k, bound), another, profiles)
              && if k in profiles && profiles[k].minimize then v <= bound else v >= bound
  {
    var bound := Objective(another, k);
    var x, y := WithObjective(one, k, v), WithObjective(one, k, bound);
    assert x.intent.objectives.Keys == one.intent.objectives.Keys == y.intent.objectives.Keys;
    assert |x.intent.objectives| == |x.intent.objectives.Keys| == |y.intent.objectives|;
    assert forall j :: j != k ==> Objective(x, j) == Objective(y, j);
    assert Objective(x, k) == v && Objective(y, k) == bound;
  }

  function WithResources(s: State, resources: map<string, int>): State
  {
    s.(resources := Some(resources))
  }

  /** What one resource decides; without any resources a state does not count as lighter. */
  lemma LessByOne(one: State, another: State, r: map<string, int>, k: string, v: int)
    requires k !in r
    ensures !LessResources(WithResources(one, map[]), another) && !LessResources(one.(resources := None), another)
    ensures LessResources(WithResources(one, r[k := v]), another) <==>
              && another.resources.Some? && k in another.resources.value && v <= another.resources.value[k]
              && (r == map[] || LessResources(WithResources(one, r), another))
  {
    assert forall j :: j in r[k := v] <==> j in r || j == k;
    assert k in r[k := v];
  }

  /** A root undoes squaring. */
  ghost predicate IsSquareRoot(sqrt: real -> real)
  {
    IsRoot(sqrt) && forall x :: 0.0 <= x ==> Times(sqrt(x), sqrt(x)) == x
  }

  /** The distance of a state that falls short is Euclidean; that of a goal-meeting one is the negated reciprocal. */
  lemma DistanceSquared(sqrt: real -> real, one: State, another: State, profiles: Profiles)
    requires IsSquareRoot(sqrt)
    ensures var d := Distance(sqrt, one, another, profiles);
            var sum := SquaresSum(one, another);
            && (sum == 0.0 ==> d == 0.0)
            && (sum != 0.0 && !IsBetter(one, another, profiles) ==> d > 0.0 && d * d == sum)
            && (sum != 0.0 && IsBetter(one, another, profiles) ==> d < 0.0 && d * d * sum == 1.0)
  {
    hide IsBetter, SquaresSum;
    var sum := SquaresSum(one, another);
    SquaresSumFacts(one, another);
    if sum != 0.0 {
      var root := sqrt(sum);
      assert sqrt(0.0) < root;
      assert Times(root, root) == sum;
      ReciprocalSquared(root, sum);
    }
  }

  lemma ReciprocalSquared(root: real, sum: real)
    requires root > 0.0 && root * root == sum
    ensures NegatedReciprocal(root) < 0.0
    ensures NegatedReciprocal(root) * NegatedReciprocal(root) * sum == 1.0
  {
    var r := 1.0 / root;
    assert r * root == 1.0;
    NegatedReciprocalGrows(root, root + 1.0);
    assert NegatedReciprocal(root) == -r;
    assert (-r) * (-r) * sum == (r * root) * (r * root);
  }

  lemma SumByOne(one: State, another: State, k: string, v: real)
    requires k in one.intent.objectives
    ensures SquaresSum(WithObjective(one, k, v), another) ==
              SquaresSum(WithObjective(one, k, Objective(another, k)), another) + Square(v - Objective(another, k))
  {
    hide Sum, Square;
    var bound := Objective(another, k);
    var x, y := WithObjective(one, k, v), WithObjective(one, k, bound);
    SumTakes(SquaredGaps(x, another), k);
    SumTakes(SquaredGaps(y, another), k);
    assert SquaredGaps(x, another) - {k} == SquaredGaps(y, another) - {k};
    SquareSign(0.0);
  }

  /** What one objective contributes to the sum of squares. */
  lemma SquaresSumByOne(one: State, another: State, k: string, v: real)
    requires k in one.intent.objectives
    ensures var bound := if k in another.intent.objectives then another.intent.objectives[k] else 0.0;
            SquaresSum(WithObjective(one, k, v), another) ==
              SquaresSum(WithObjective(one, k, bound), another) + (v - bound) * (v - bound)
  {
    hide SquaresSum, Square;
    SumByOne(one, another, k, v);
    SquareIs(v - Objective(another, k));
  }

  lemma SquareIs(x: real)
    ensures Square(x) == x * x
  {
  }

  /** A copy is the state itself but for two fields that are cleared, and the same for all that is compared. */
  lemma CopyIsSame(one: State, another: State)
    ensures DeepCopy(one) == one <==> !one.intent.activelyManaged && one.intent.tolerations == None
    ensures DeepCopy(one) == DeepCopy(another) <==>
              one == another.(intent := another.intent.(activelyManaged := one.intent.activelyManaged,
                                                        tolerations := one.intent.tolerations))
    ensures DeepCopy(DeepCopy(one)) == DeepCopy(one)
  {
  }
}
