/** The availability arithmetic of pkg/controller/kpi.go. */
module Kpi {
  import opened Folds
  import opened Types

  // ---------------------------------------------------------------- one pod

  /** An outage; times are seconds since some fixed moment. */
  datatype PodError = PodError(key: string, start: real, end: real, created: real)

  function Total(numbs: seq<real>): real
  {
    if numbs == [] then 0.0 else Total(numbs[..|numbs| - 1]) + numbs[|numbs| - 1]
  }

  method Average(numbs: seq<real>) returns (mean: real)
    requires numbs != []
    ensures mean == Total(numbs) / |numbs| as real
  {
    var total, i := 0.0, 0;
    while i < |numbs|
      invariant 0 <= i <= |numbs| && total == Total(numbs[..i])
    {
      assert numbs[..i + 1][..i] == numbs[..i];
      total := total + numbs[i];
      i := i + 1;
    }
    assert numbs[..i] == numbs;
    mean := total / |numbs| as real;
  }

  /** When the pod was last seen to come up before the i-th outage. */
  function LastUp(errors: seq<PodError>, i: nat): real
    requires i <= |errors| && errors != []
  {
    if i == 0 then errors[0].created else errors[i - 1].end
  }

  /** The time the pod was up: before each outage, and after the last one until now. */
  function Uptime(errors: seq<PodError>, i: nat): real
    requires i <= |errors| && errors != []
  {
    if i == 0 then 0.0 else Uptime(errors, i - 1) + (errors[i - 1].start - LastUp(errors, i - 1))
  }

  function Up(errors: seq<PodError>, now: real): real
    requires errors != []
  {
    Uptime(errors, |errors|) + (now - LastUp(errors, |errors|))
  }

  /** The time the pod was down in the first i outages. */
  function Down(errors: seq<PodError>, i: nat): real
    requires i <= |errors|
  {
    if i == 0 then 0.0 else Down(errors, i - 1) + (errors[i - 1].end - errors[i - 1].start)
  }

  /** The mean time between failures over that time plus the mean time to repair. */
  function PodAvailability(errors: seq<PodError>, now: real): real
    requires errors != [] ==> MeanCycle(errors, now) != 0.0
  {
    if errors == [] then 1.0 else MeanUp(errors, now) / MeanCycle(errors, now)
  }

  function MeanUp(errors: seq<PodError>, now: real): real
    requires errors != []
  {
    Up(errors, now) / (|errors| + 1) as real
  }

  function MeanDown(errors: seq<PodError>): real
    requires errors != []
  {
    Down(errors, |errors|) / |errors| as real
  }

  function MeanCycle(errors: seq<PodError>, now: real): real
    requires errors != []
  {
    MeanUp(errors, now) + MeanDown(errors)
  }

  method ComputePodAvailability(podErrors: seq<PodError>, now: real) returns (availability: real)
    requires podErrors != [] ==> MeanCycle(podErrors, now) != 0.0
    ensures availability == PodAvailability(podErrors, now)
  {
    if |podErrors| == 0 {
      return 1.0;
    }
    var lastFailure := podErrors[0].created;
    var tbf: seq<real>, ttr: seq<real> := [], [];
    var i := 0;
    while i < |podErrors|
      invariant 0 <= i <= |podErrors| && |tbf| == |ttr| == i
      invariant lastFailure == LastUp(podErrors, i)
      invariant Total(tbf) == Uptime(podErrors, i) && Total(ttr) == Down(podErrors, i)
    {
      var failure := podErrors[i];
      TotalAdds(tbf, failure.start - lastFailure);
      tbf := tbf + [failure.start - lastFailure];
      lastFailure := failure.end;
      TotalAdds(ttr, failure.end - failure.start);
      ttr := ttr + [failure.end - failure.start];
      i := i + 1;
    }
    TotalAdds(tbf, now - lastFailure);
    tbf := tbf + [now - lastFailure];
    var meanTimeToRepair := Average(ttr);
    var meanTimeBetweenFailure := Average(tbf);
    assert meanTimeBetweenFailure == MeanUp(podErrors, now) && meanTimeToRepair == MeanDown(podErrors);
    availability := meanTimeBetweenFailure / (meanTimeBetweenFailure + meanTimeToRepair);
  }

  lemma TotalAdds(numbs: seq<real>, x: real)
    ensures Total(numbs + [x]) == Total(numbs) + x
  {
    assert (numbs + [x])[..|numbs|] == numbs;
  }

  /** Up and down times leave nothing out and count nothing twice, in whatever order the outages are listed. */
  lemma {:induction false} UpAndDownAddUp(errors: seq<PodError>, now: real)
    requires errors != []
    ensures Up(errors, now) + Down(errors, |errors|) == now - errors[0].created
  {
    Telescope(errors, |errors|);
  }

  lemma {:induction false} Telescope(errors: seq<PodError>, i: nat)
    requires errors != [] && i <= |errors|
    ensures Uptime(errors, i) + Down(errors, i) == LastUp(errors, i) - errors[0].created
  {
    if i > 0 {
      Telescope(errors, i - 1);
    }
  }

  /** Outages do not overlap, start after the pod was created, and are over by now. */
  ghost predicate Chronological(errors: seq<PodError>, now: real)
  {
    errors != [] ==>
      && (forall i :: 0 <= i < |errors| ==> LastUp(errors, i) <= errors[i].start <= errors[i].end)
      && errors[|errors| - 1].end <= now
  }

  lemma {:induction false} TimesNonNegative(errors: seq<PodError>, now: real, i: nat)
    requires errors != [] && Chronological(errors, now) && i <= |errors|
    ensures Uptime(errors, i) >= 0.0 && Down(errors, i) >= 0.0
  {
    if i > 0 {
      TimesNonNegative(errors, now, i - 1);
    }
  }

  lemma QuotientSign(a: real, b: real, q: real)
    requires a >= 0.0 && b > 0.0 && q == a / b
    ensures q >= 0.0 && (a > 0.0 ==> q > 0.0) && Times(q, b) == a
  {
    ProductSign(q, b, Times(q, b));
  }

  /** Comparing fractions by cross-multiplication. */
  lemma QuotientOrder(a: real, b: real, c: real, d: real)
    requires b > 0.0 && d > 0.0 && Times(a, d) <= Times(c, b)
    ensures a / b <= c / d
  {
    var q, r, bd := a / b, c / d, b * d;
    var gap := (q - r) * bd;
    assert q * b == a && r * d == c;
    assert gap == (q * b) * d - (r * d) * b;
    ProductSign(b, d, bd);
    ProductSign(q - r, bd, gap);
  }

  lemma MeansUnderstate(up: real, down: real, n: real, x: real, y: real)
    requires up == Times(x, n + 1.0) && down == Times(y, n)
    requires x >= 0.0 && y >= 0.0 && x + y > 0.0 && up + down > 0.0
    ensures x / (x + y) <= up / (up + down)
  {
    CrossProducts(up, down, n, x, y);
    QuotientOrder(x, x + y, up, up + down);
  }

  lemma CrossProducts(up: real, down: real, n: real, x: real, y: real)
    requires up == Times(x, n + 1.0) && down == Times(y, n) && x >= 0.0 && y >= 0.0
    ensures Times(x, up + down) <= Times(up, x + y)
  {
    var xy := Times(x, y);
    ProductSign(x, y, xy);
    hide Times;
    TimesDistributes(x, up, down);
    TimesDistributes(up, x, y);
    TimesSwaps(x, up);
    TimesAssociates(x, y, n);
    TimesSwaps(up, y);
    TimesAssociates(y, x, n + 1.0);
    TimesSwaps(x, y);
    TimesDistributes(xy, n, 1.0);
    TimesOne(xy);
  }

  lemma TimesOne(a: real)
    ensures Times(a, 1.0) == a
  {
  }

  lemma MeansNonNegative(errors: seq<PodError>, now: real)
    requires errors != [] && Chronological(errors, now)
    ensures MeanUp(errors, now) >= 0.0 && MeanDown(errors) >= 0.0
    ensures now > errors[0].created ==> MeanCycle(errors, now) > 0.0
  {
    var n := |errors| as real;
    TimesNonNegative(errors, now, |errors|);
    UpAndDownAddUp(errors, now);
    QuotientSign(Up(errors, now), n + 1.0, MeanUp(errors, now));
    QuotientSign(Down(errors, |errors|), n, MeanDown(errors));
  }

  /** What is reported never overstates the share of its life the pod was really up. */
  lemma NeverOverstated(errors: seq<PodError>, now: real)
    requires errors != [] && Chronological(errors, now) && now > errors[0].created
    ensures MeanCycle(errors, now) != 0.0
    ensures 0.0 <= PodAvailability(errors, now) <= Up(errors, now) / (now - errors[0].created)
  {
    hide Times, Chronological;
    var n := |errors| as real;
    var x, y := MeanUp(errors, now), MeanDown(errors);
    MeansNonNegative(errors, now);
    TimesNonNegative(errors, now, |errors|);
    UpAndDownAddUp(errors, now);
    QuotientSign(Up(errors, now), n + 1.0, x);
    QuotientSign(Down(errors, |errors|), n, y);
    MeansUnderstate(Up(errors, now), Down(errors, |errors|), n, x, y);
    QuotientSign(x, x + y, x / (x + y));
  }

  /** As long as no further outage comes, what is reported does not go down. */
  lemma GrowsWithTime(errors: seq<PodError>, now: real, later: real)
    requires errors != [] && Chronological(errors, now) && errors[0].created < now <= later
    ensures MeanCycle(errors, now) != 0.0 && MeanCycle(errors, later) != 0.0
    ensures PodAvailability(errors, now) <= PodAvailability(errors, later)
  {
    hide Times;
    MeansNonNegative(errors, now);
    MeansNonNegative(errors, later);
    MeanGrows(Up(errors, now), Up(errors, later), |errors| as real + 1.0);
    ShareGrows(MeanUp(errors, now), MeanUp(errors, later), MeanDown(errors));
  }

  lemma MeanGrows(a: real, b: real, n: real)
    requires a <= b && n > 0.0
    ensures a / n <= b / n
  {
  }

  lemma ShareGrows(x: real, z: real, y: real)
    requires 0.0 <= x <= z && 0.0 <= y && x + y > 0.0
    ensures x / (x + y) <= z / (z + y)
  {
    var gap := Times(y, z - x);
    ProductSign(y, z - x, gap);
    assert Times(x, z + y) <= Times(z, x + y) by {
      hide Times;
      TimesDistributes(x, z, y);
      TimesDistributes(z, x, y);
      TimesSwaps(x, z);
      TimesSwaps(x, y);
      TimesSwaps(z, y);
      TimesDistributes(y, z - x, x);
      assert Times(y, z - x + x) == Times(y, z);
    }
    QuotientOrder(x, x + y, z, z + y);
  }

  /** How long each outage lasted. */
  function Outages(errors: seq<PodError>): seq<real>
  {
    if errors == [] then [] else
      var last := errors[|errors| - 1];
      Outages(errors[..|errors| - 1]) + [last.end - last.start]
  }

  lemma {:induction false} OutagesAt(errors: seq<PodError>, i: nat)
    requires i < |errors|
    ensures |Outages(errors)| == |errors| && Outages(errors)[i] == errors[i].end - errors[i].start
  {
    if |errors| > 1 {
      OutagesAt(errors[..|errors| - 1], if i < |errors| - 1 then i else 0);
    }
  }

  lemma {:induction false} DownIsTotal(errors: seq<PodError>, i: nat)
    requires i <= |errors|
    ensures Down(errors, i) == Total(Outages(errors[..i]))
  {
    if i > 0 {
      DownIsTotal(errors, i - 1);
      assert errors[..i][..i - 1] == errors[..i - 1];
      TotalAdds(Outages(errors[..i - 1]), errors[i - 1].end - errors[i - 1].start);
    }
  }

  /** Of a pod without outages nothing bad is reported, and of no other pod that was ever down. */
  lemma FullyAvailableIff(errors: seq<PodError>, now: real)
    requires Chronological(errors, now) && (errors != [] ==> now > errors[0].created)
    ensures errors != [] ==> MeanCycle(errors, now) != 0.0
    ensures PodAvailability(errors, now) <= 1.0
    ensures PodAvailability(errors, now) == 1.0 <==> Total(Outages(errors)) == 0.0
  {
    if errors != [] {
      var x, y := MeanUp(errors, now), MeanDown(errors);
      MeansNonNegative(errors, now);
      DownIsTotal(errors, |errors|);
      assert errors[..|errors|] == errors;
      ZeroQuotient(Down(errors, |errors|), |errors| as real, y);
      ShareIsOneIff(x, y);
    }
  }

  lemma ZeroQuotient(a: real, b: real, q: real)
    requires b > 0.0 && q == a / b
    ensures q == 0.0 <==> a == 0.0
  {
    ProductSign(q, b, q * b);
  }

  lemma ShareIsOneIff(x: real, y: real)
    requires y >= 0.0 && x + y > 0.0
    ensures x / (x + y) <= 1.0 && (x / (x + y) == 1.0 <==> y == 0.0)
  {
    var q := x / (x + y);
    var rest := (1.0 - q) * (x + y);
    assert rest == y;
    ProductSign(1.0 - q, x + y, rest);
  }

  /**
   * What is reported is to what is missing as the mean uptime is to the mean outage; with n outages there are n + 1
   * times of being up.
   */
  lemma AvailabilityRatio(errors: seq<PodError>, now: real)
    requires errors != [] && MeanCycle(errors, now) != 0.0
    ensures var a, n := PodAvailability(errors, now), |errors| as real;
            var down := Total(Outages(errors));
            var up := now - errors[0].created - down;
            a * (down / n) == (1.0 - a) * (up / (n + 1.0))
  {
    hide MeanUp, MeanDown, Outages, Total;
    MeansAre(errors, now);
    RatioOfShare(MeanUp(errors, now), MeanDown(errors), PodAvailability(errors, now));
  }

  lemma MeansAre(errors: seq<PodError>, now: real)
    requires errors != []
    ensures MeanUp(errors, now) == (now - errors[0].created - Total(Outages(errors))) / (|errors| as real + 1.0)
    ensures MeanDown(errors) == Total(Outages(errors)) / |errors| as real
  {
    hide Up, Down, Outages, Total;
    DownIsTotal(errors, |errors|);
    assert errors[..|errors|] == errors;
    UpAndDownAddUp(errors, now);
    assert Up(errors, now) == now - errors[0].created - Total(Outages(errors));
  }

  lemma RatioOfShare(x: real, y: real, a: real)
    requires x + y != 0.0 && a == x / (x + y)
    ensures a * y == (1.0 - a) * x
  {
    assert a * (x + y) == x;
  }

  // ---------------------------------------------------------------- a set of pods

  function Failures(pods: map<string, PodState>): map<string, real>
  {
    map k | k in pods :: 1.0 - pods[k].availability
  }

  /** The chance that not all pods are down at once; of an empty set, 1. */
  function PodSetAvailability(pods: map<string, PodState>): real
  {
    if pods == map[] then 1.0 else 1.0 - Product(Failures(pods))
  }

  /** The loop of PodSetAvailability, whatever order the map is walked in. */
  method ComputePodSetAvailability(pods: map<string, PodState>) returns (availability: real)
    ensures availability == PodSetAvailability(pods)
  {
    if |pods| < 1 {
      return 1.0;
    }
    var res := 1.0;
    var todo := pods.Keys;
    ghost var failures := Failures(pods);
    while todo != {}
      invariant todo <= failures.Keys
      invariant res == Product(failures - todo)
    {
      var k :| k in todo;
      ProductAdds(failures - todo, k, failures[k]);
      assert (failures - todo)[k := failures[k]] == failures - (todo - {k});
      res := Times(1.0 - pods[k].availability, res);
      todo := todo - {k};
    }
    assert failures - {} == failures;
    return 1.0 - res;
  }

  ghost predicate Fractions(pods: map<string, PodState>)
  {
    forall k :: k in pods ==> 0.0 <= pods[k].availability <= 1.0
  }

  /** One more pod only has to fail together with all the others. */
  lemma OneMorePod(pods: map<string, PodState>, k: string, pod: PodState)
    requires pods != map[] && k !in pods
    ensures 1.0 - PodSetAvailability(pods[k := pod]) == Times(1.0 - pod.availability, 1.0 - PodSetAvailability(pods))
  {
    hide Product, Times;
    ProductAdds(Failures(pods), k, 1.0 - pod.availability);
    assert Failures(pods[k := pod]) == Failures(pods)[k := 1.0 - pod.availability];
  }

  lemma SetIsFraction(pods: map<string, PodState>)
    requires Fractions(pods)
    ensures 0.0 <= PodSetAvailability(pods) <= 1.0
  {
    ProductOfFractions(Failures(pods));
  }

  /** A single pod is as available as it is. */
  lemma OnePod(k: string, pod: PodState)
    ensures PodSetAvailability(map[k := pod]) == pod.availability
  {
    hide Fold;
    ProductAdds(map[], k, 1.0 - pod.availability);
    assert Failures(map[k := pod]) == map[k := 1.0 - pod.availability];
    assert Product(map[]) == 1.0 by {
      EmptyProduct();
    }
    TimesOne(1.0 - pod.availability);
  }

  lemma EmptyProduct()
    ensures Product(map[]) == 1.0
  {
  }

  /** Another pod never makes the set less available. */
  lemma MoreIsNoWorse(pods: map<string, PodState>, k: string, pod: PodState)
    requires pods != map[] && k !in pods && Fractions(pods) && 0.0 <= pod.availability <= 1.0
    ensures PodSetAvailability(pods) <= PodSetAvailability(pods[k := pod])
  {
    hide PodSetAvailability, Times;
    OneMorePod(pods, k, pod);
    SetIsFraction(pods);
    FractionTimes(1.0 - pod.availability, 1.0 - PodSetAvailability(pods));
  }

  /** Removing a pod from two or more never makes the set more available; removing the only one always reads as 1. */
  lemma FewerIsNoBetter(pods: map<string, PodState>, k: string)
    requires k in pods && Fractions(pods)
    ensures |pods| >= 2 ==> PodSetAvailability(pods - {k}) <= PodSetAvailability(pods)
    ensures |pods| == 1 ==> PodSetAvailability(pods - {k}) == 1.0
  {
    hide PodSetAvailability;
    var rest := pods - {k};
    assert |rest| == |pods| - 1 && rest[k := pods[k]] == pods;
    if |pods| >= 2 {
      MoreIsNoWorse(rest, k, pods[k]);
    } else {
      NoPods(rest);
    }
  }

  lemma NoPods(pods: map<string, PodState>)
    requires |pods| == 0
    ensures PodSetAvailability(pods) == 1.0
  {
  }
}
