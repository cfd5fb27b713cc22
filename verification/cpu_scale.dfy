/** Picking a CPU allocation: pkg/planner/actuators/scaling/cpu_scale.go. */
module CpuScale {
  import opened Folds

  /** What is relied on of math.Exp and math.Log: exp grows strictly, and undoes log. */
  ghost predicate AreInverse(exp: real -> real, log: real -> real)
  {
    (forall x, y :: x < y ==> exp(x) < exp(y)) && forall y :: y > 0.0 ==> exp(log(y)) == y
  }

  type Popt = (real, real, real)

  function PredictLatency(exp: real -> real, popt: Popt, limCPU: real): real
  {
    Times(popt.0, exp(Times(-popt.1, limCPU / 1000.0))) + popt.2
  }

  /** Go's conversion of a float to an integer drops the fraction. */
  function Truncate(x: real): int
  {
    if x >= 0.0 then x.Floor else -((-x).Floor)
  }

  /** Go's integer division rounds towards zero. */
  function Quotient(n: int, d: int): int
    requires d != 0
  {
    if (n >= 0) == (d > 0) then Abs(n) / Abs(d) else -(Abs(n) / Abs(d))
  }

  function Abs(n: int): nat
  {
    if n < 0 then -n else n
  }

  function RoundUpCores(n: int, fraction: int): int
    requires fraction != 0
  {
    Quotient(n, fraction) * fraction + fraction
  }

  function Steps(k: int, d: int): int
  {
    k * d
  }

  ghost predicate IsMultiple(n: int, d: int)
  {
    exists k :: n == Steps(k, d)
  }

  /** The next allocation up is a multiple of the fraction, and really above n, by no more than the fraction. */
  lemma RoundsUp(n: nat, fraction: int)
    requires fraction > 0
    ensures n < RoundUpCores(n, fraction) <= n + fraction
    ensures IsMultiple(RoundUpCores(n, fraction), fraction)
  {
    var q := n / fraction;
    assert n == q * fraction + n % fraction;
    assert Steps(q + 1, fraction) == RoundUpCores(n, fraction);
  }

  /** A model whose parameters do not divide by zero. */
  predicate Usable(popt: Popt)
  {
    popt.0 != 0.0 && popt.1 != 0.0
  }

  /** The CPU allocation at which the model predicts exactly the given latency. */
  function Exact(log: real -> real, popt: Popt, latency: real): real
    requires Usable(popt)
  {
    Times(Times(-(1.0 / popt.1), log((latency - popt.2) / popt.0)), 1000.0)
  }

  /** The model cannot serve this goal, or would do with no CPU at all. */
  predicate PassedOver(log: real -> real, popt: Popt, goal: real, safeguard: real)
    requires Usable(popt)
  {
    goal < popt.2 || Truncate(Exact(log, popt, Times(goal, safeguard))) <= 0
  }

  /** The model can serve the goal, and this is the CPU allocation it asks for. */
  predicate Decides(log: real -> real, popt: Popt, goal: real, safeguard: real, rounding: int, value: int)
    requires Usable(popt) && rounding != 0
  {
    !PassedOver(log, popt, goal, safeguard) &&
    value == RoundUpCores(Truncate(Exact(log, popt, Times(goal, safeguard))), rounding)
  }

  /** The decision is a positive multiple of the rounding, which is enough by the model, and one step less is not. */
  lemma DecidedIsEnough(log: real -> real, popt: Popt, goal: real, safeguard: real, rounding: int, value: int)
    requires Usable(popt) && rounding > 0 && Decides(log, popt, goal, safeguard, rounding, value)
    ensures value > 0 && value % rounding == 0
    ensures forall exp: real -> real ::
              AreInverse(exp, log) && popt.0 > 0.0 && popt.1 > 0.0 && popt.2 < Times(goal, safeguard) ==>
                && Exact(log, popt, Times(goal, safeguard)) < value as real
                && value as real <= Exact(log, popt, Times(goal, safeguard)) + rounding as real
                && PredictLatency(exp, popt, value as real) < Times(goal, safeguard)
                && Times(goal, safeguard) <= PredictLatency(exp, popt, (value - rounding) as real)
  {
    hide Exact, RoundUpCores, PredictLatency, Times;
    var latency := Times(goal, safeguard);
    RoundsUp(Truncate(Exact(log, popt, latency)), rounding);
    MultipleIs(value, rounding);
    forall exp: real -> real | AreInverse(exp, log) && popt.0 > 0.0 && popt.1 > 0.0 && popt.2 < latency
      ensures Exact(log, popt, latency) < value as real <= Exact(log, popt, latency) + rounding as real
      ensures PredictLatency(exp, popt, value as real) < latency
      ensures latency <= PredictLatency(exp, popt, (value - rounding) as real)
    {
      PickIsSafe(exp, log, popt, goal, safeguard, rounding);
      ExactIsExact(exp, log, popt, latency);
      if (value - rounding) as real < Exact(log, popt, latency) {
        MoreIsFaster(exp, log, popt, (value - rounding) as real, Exact(log, popt, latency));
      }
    }
  }

  lemma MultipleIs(n: int, d: int)
    requires d > 0 && IsMultiple(n, d)
    ensures n % d == 0
  {
    var k :| n == Steps(k, d);
    ModOfMultiple(k, d);
  }

  lemma ModOfMultiple(k: int, d: int)
    requires d > 0
    ensures (k * d) % d == 0
  {
    var q, r := (k * d) / d, (k * d) % d;
    assert k * d == q * d + r;
    assert (k - q) * d == r;
    MultipleSize(k - q, d);
  }

  lemma MultipleSize(m: int, d: int)
    requires d > 0
    ensures (m >= 1 ==> m * d >= d) && (m <= -1 ==> m * d <= -d)
  {
  }

  /** The loop over the models: the first that is not passed over decides. */
  method PickCPU(log: real -> real, popts: seq<Popt>, goal: real, safeguard: real, rounding: int)
    returns (newCPUValue: int, ghost i: nat)
    requires rounding != 0 && forall p :: p in popts ==> Usable(p)
    ensures (forall p :: p in popts ==> PassedOver(log, p, goal, safeguard)) ==> newCPUValue == 0
    ensures newCPUValue == 0 || exists p :: p in popts && Decides(log, p, goal, safeguard, rounding, newCPUValue)
    ensures i <= |popts| && forall j :: 0 <= j < i ==> PassedOver(log, popts[j], goal, safeguard)
    ensures i == |popts| ==> newCPUValue == 0
    ensures i < |popts| ==> Decides(log, popts[i], goal, safeguard, rounding, newCPUValue)
    ensures i < |popts| && rounding > 0 ==>
              && newCPUValue > 0 && newCPUValue % rounding == 0
              && forall exp: real -> real ::
                   AreInverse(exp, log) && popts[i].0 > 0.0 && popts[i].1 > 0.0
                   && popts[i].2 < Times(goal, safeguard) ==>
                     && Exact(log, popts[i], Times(goal, safeguard)) < newCPUValue as real
                     && newCPUValue as real <= Exact(log, popts[i], Times(goal, safeguard)) + rounding as real
                     && PredictLatency(exp, popts[i], newCPUValue as real) < Times(goal, safeguard)
                     && Times(goal, safeguard) <= PredictLatency(exp, popts[i], (newCPUValue - rounding) as real)
  {
    hide Exact, Truncate, RoundUpCores, PredictLatency, AreInverse, Times;
    newCPUValue := 0;
    var k := 0;
    while k < |popts|
      invariant 0 <= k <= |popts| && newCPUValue == 0
      invariant forall j :: 0 <= j < k ==> PassedOver(log, popts[j], goal, safeguard)
    {
      var popt := popts[k];
      assert popt in popts;
      if goal < popt.2 {
        k := k + 1;
        continue;
      }
      var latency := Times(goal, safeguard);
      var cpuValue := Truncate(Exact(log, popt, latency));
      if cpuValue > newCPUValue {
        newCPUValue := RoundUpCores(cpuValue, rounding);
        i := k;
        if rounding > 0 {
          DecidedIsEnough(log, popt, goal, safeguard, rounding, newCPUValue);
        }
        return;
      }
      k := k + 1;
    }
    i := k;
  }

  lemma ExactExponent(log: real -> real, popt: Popt, latency: real)
    requires popt.0 > 0.0 && popt.1 > 0.0
    ensures Times(-popt.1, Exact(log, popt, latency) / 1000.0) == log((latency - popt.2) / popt.0)
  {
    var l, r := log((latency - popt.2) / popt.0), 1.0 / popt.1;
    assert Exact(log, popt, latency) / 1000.0 == Times(-r, l);
    Cancels(popt.1, r, l);
  }

  lemma Cancels(a: real, r: real, l: real)
    requires a * r == 1.0
    ensures Times(-a, Times(-r, l)) == l
  {
    assert Times(-a, Times(-r, l)) == (a * r) * l;
  }

  lemma ExactIsExact(exp: real -> real, log: real -> real, popt: Popt, latency: real)
    requires AreInverse(exp, log) && popt.0 > 0.0 && popt.1 > 0.0 && popt.2 < latency
    ensures PredictLatency(exp, popt, Exact(log, popt, latency)) == latency
  {
    hide Exact, Usable;
    var y := (latency - popt.2) / popt.0;
    QuotientOfPositives(latency - popt.2, popt.0, y);
    ExactExponent(log, popt, latency);
    assert exp(log(y)) == y;
  }

  lemma QuotientOfPositives(a: real, b: real, q: real)
    requires a > 0.0 && b > 0.0 && q == a / b
    ensures q > 0.0 && Times(b, q) == a
  {
    ProductSign(b, q, b * q);
  }

  /** More CPU means less latency. */
  lemma MoreIsFaster(exp: real -> real, log: real -> real, popt: Popt, few: real, many: real)
    requires AreInverse(exp, log) && popt.0 > 0.0 && popt.1 > 0.0 && few < many
    ensures PredictLatency(exp, popt, many) < PredictLatency(exp, popt, few)
  {
    var x, y := few / 1000.0, many / 1000.0;
    var gap := Times(popt.1, y - x);
    ProductSign(popt.1, y - x, gap);
    assert gap == Times(-popt.1, x) - Times(-popt.1, y);
    var a, b := exp(Times(-popt.1, x)), exp(Times(-popt.1, y));
    assert b < a;
    var drop := Times(popt.0, a - b);
    ProductSign(popt.0, a - b, drop);
    assert drop == Times(popt.0, a) - Times(popt.0, b);
  }

  /**
   * The allocation picked is a whole number of rounding steps, above what the model asks for by at most one step,
   * so that the model that picked it predicts a latency strictly below the guarded goal.
   */
  lemma PickIsSafe(exp: real -> real, log: real -> real, popt: Popt, goal: real, safeguard: real, rounding: int)
    requires AreInverse(exp, log) && popt.0 > 0.0 && popt.1 > 0.0 && rounding > 0
    requires popt.2 < Times(goal, safeguard) && !PassedOver(log, popt, goal, safeguard)
    ensures var latency := Times(goal, safeguard);
            var exact := Exact(log, popt, latency);
            var picked := RoundUpCores(Truncate(exact), rounding);
            && IsMultiple(picked, rounding)
            && exact < picked as real <= exact + rounding as real
            && PredictLatency(exp, popt, picked as real) < latency
  {
    hide Exact, Times, RoundUpCores;
    var latency := Times(goal, safeguard);
    var exact := Exact(log, popt, latency);
    RoundsUp(Truncate(exact), rounding);
    ExactIsExact(exp, log, popt, latency);
    MoreIsFaster(exp, log, popt, exact, RoundUpCores(Truncate(exact), rounding) as real);
  }

  /** A model is passed over if it cannot serve the goal, or serves the guarded goal with a thousandth of a CPU. */
  lemma PassedOverIff(exp: real -> real, log: real -> real, popt: Popt, goal: real, safeguard: real)
    requires AreInverse(exp, log) && popt.0 > 0.0 && popt.1 > 0.0 && popt.2 < Times(goal, safeguard)
    ensures PassedOver(log, popt, goal, safeguard) <==>
              goal < popt.2 || PredictLatency(exp, popt, 1.0) < Times(goal, safeguard)
  {
    hide Exact, PredictLatency, Times;
    var latency := Times(goal, safeguard);
    var exact := Exact(log, popt, latency);
    ExactIsExact(exp, log, popt, latency);
    if exact < 1.0 {
      MoreIsFaster(exp, log, popt, exact, 1.0);
    } else if exact > 1.0 {
      MoreIsFaster(exp, log, popt, 1.0, exact);
    }
  }

  /** What makes exp an exponential function. */
  ghost predicate IsExponential(exp: real -> real)
  {
    exp(0.0) == 1.0 && forall x, y {:trigger Times(exp(x), exp(y))} :: exp(x + y) == Times(exp(x), exp(y))
  }

  /** Without CPU the whole of popt.0 is added to the floor popt.2; each further CPU shrinks it by exp(-popt.1). */
  lemma EachCPUShrinks(exp: real -> real, popt: Popt, limCPU: real)
    requires IsExponential(exp)
    ensures PredictLatency(exp, popt, 0.0) == popt.0 + popt.2
    ensures PredictLatency(exp, popt, limCPU + 1000.0) - popt.2 ==
              Times(PredictLatency(exp, popt, limCPU) - popt.2, exp(-popt.1))
  {
    hide Times;
    var x := limCPU / 1000.0;
    NextStep(popt.1, x);
    NoStep(popt.1, popt.0);
    assert (limCPU + 1000.0) / 1000.0 == x + 1.0;
    assert exp(Times(-popt.1, x) + -popt.1) == Times(exp(Times(-popt.1, x)), exp(-popt.1));
    TimesAssociates(popt.0, exp(Times(-popt.1, x)), exp(-popt.1));
    assert 0.0 / 1000.0 == 0.0;
  }

  lemma NextStep(rate: real, x: real)
    ensures Times(-rate, x + 1.0) == Times(-rate, x) + -rate
  {
  }

  lemma NoStep(rate: real, a: real)
    ensures Times(-rate, 0.0) == 0.0 && Times(a, 1.0) == a
  {
  }
}
