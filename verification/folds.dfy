/**
 * Sums and products over the values of a map. The result never depends on the order in which a loop visits the keys.
 */
module Folds {

  /** Lexicographic order on keys: only used to give the fold functions a definite key to start with. */
  predicate Before(a: string, b: string)
  {
    a == [] || (b != [] && (a[0] < b[0] || (a[0] == b[0] && Before(a[1..], b[1..]))))
  }

  lemma {:induction false} BeforeIsTotal(a: string, b: string)
    ensures Before(a, b) || Before(b, a)
  {
    if a != [] && b != [] && a[0] == b[0] {
      BeforeIsTotal(a[1..], b[1..]);
    }
  }

  lemma {:induction false} BeforeIsAntisymmetric(a: string, b: string)
    requires Before(a, b) && Before(b, a)
    ensures a == b
  {
    if a != [] && b != [] {
      BeforeIsAntisymmetric(a[1..], b[1..]);
      assert a == [a[0]] + a[1..] && b == [b[0]] + b[1..];
    }
  }

  lemma {:induction false} BeforeIsTransitive(a: string, b: string, c: string)
    requires Before(a, b) && Before(b, c)
    ensures Before(a, c)
  {
    if a != [] && a[0] == b[0] && b[0] == c[0] {
      BeforeIsTransitive(a[1..], b[1..], c[1..]);
    }
  }

  predicate IsLeast(k: string, s: set<string>)
  {
    k in s && forall j | j in s :: Before(k, j)
  }

  lemma {:induction false} LeastExists(s: set<string>)
    requires s != {}
    ensures exists k :: IsLeast(k, s)
    ensures forall k, l :: IsLeast(k, s) && IsLeast(l, s) ==> k == l
  {
    var k :| k in s;
    BeforeIsTotal(k, k);
    if s == {k} {
      assert IsLeast(k, s);
    } else {
      LeastExists(s - {k});
      var l :| IsLeast(l, s - {k});
      BeforeIsTotal(k, l);
      var least := if Before(k, l) then k else l;
      BeforeIsTotal(least, least);
      forall j | j in s ensures Before(least, j) {
        if j != k && j != l && least == k {
          BeforeIsTransitive(k, l, j);
        }
      }
      assert IsLeast(least, s);
    }
    forall k, l | IsLeast(k, s) && IsLeast(l, s) ensures k == l {
      BeforeIsAntisymmetric(k, l);
    }
  }

  function Least(s: set<string>): (k: string)
    requires s != {}
    ensures IsLeast(k, s)
  {
    LeastExists(s);
    var k :| k in s && IsLeast(k, s);
    k
  }

  /** Combines all values of a map, starting from `unit`. */
  function Fold(f: (real, real) -> real, unit: real, m: map<string, real>): real
  {
    if m == map[] then unit else
      var k := Least(m.Keys);
      f(m[k], Fold(f, unit, m - {k}))
  }

  ghost predicate Exchanges(f: (real, real) -> real)
  {
    forall a, b, c :: f(a, f(b, c)) == f(b, f(a, c))
  }

  /** Any key may be taken first. */
  lemma {:induction false} FoldTakes(f: (real, real) -> real, unit: real, m: map<string, real>, k: string)
    requires k in m && Exchanges(f)
    ensures Fold(f, unit, m) == f(m[k], Fold(f, unit, m - {k}))
    decreases |m|
  {
    var l := Least(m.Keys);
    if k != l {
      FoldTakes(f, unit, m - {l}, k);
      FoldTakes(f, unit, m - {k}, l);
      assert m - {l} - {k} == m - {k} - {l};
      var rest := Fold(f, unit, m - {k} - {l});
      ExchangesAt(f, m[l], m[k], rest);
    }
  }

  lemma ExchangesAt(f: (real, real) -> real, a: real, b: real, c: real)
    requires Exchanges(f)
    ensures f(a, f(b, c)) == f(b, f(a, c))
  {
  }

  function Plus(a: real, b: real): real
  {
    a + b
  }

  function Times(a: real, b: real): real
  {
    a * b
  }

  function Sum(m: map<string, real>): real
  {
    Fold(Plus, 0.0, m)
  }

  function Product(m: map<string, real>): real
  {
    Fold(Times, 1.0, m)
  }

  lemma SumTakes(m: map<string, real>, k: string)
    requires k in m
    ensures Sum(m) == m[k] + Sum(m - {k})
  {
    FoldTakes(Plus, 0.0, m, k);
  }

  lemma TimesExchanges()
    ensures Exchanges(Times)
  {
    forall a, b, c ensures Times(a, Times(b, c)) == Times(b, Times(a, c)) {
      TimesCommutes(a, b, c);
    }
  }

  lemma TimesCommutes(a: real, b: real, c: real)
    ensures a * (b * c) == b * (a * c)
  {
  }

  lemma ProductTakes(m: map<string, real>, k: string)
    requires k in m
    ensures Product(m) == Times(m[k], Product(m - {k}))
  {
    TimesExchanges();
    FoldTakes(Times, 1.0, m, k);
  }

  lemma SumAdds(m: map<string, real>, k: string, v: real)
    requires k !in m
    ensures Sum(m[k := v]) == Sum(m) + v
  {
    SumTakes(m[k := v], k);
    assert m[k := v] - {k} == m;
  }

  lemma ProductAdds(m: map<string, real>, k: string, v: real)
    requires k !in m
    ensures Product(m[k := v]) == Times(v, Product(m))
  {
    ProductTakes(m[k := v], k);
    assert m[k := v] - {k} == m;
  }

  lemma {:induction false} SumOfNonNegatives(m: map<string, real>)
    requires forall k :: k in m ==> m[k] >= 0.0
    ensures Sum(m) >= 0.0
    ensures Sum(m) == 0.0 <==> forall k :: k in m ==> m[k] == 0.0
  {
    if m != map[] {
      var l := Least(m.Keys);
      SumOfNonNegatives(m - {l});
      if Sum(m) == 0.0 {
        forall k | k in m ensures m[k] == 0.0 {
          assert k != l ==> (m - {l})[k] == 0.0;
        }
      }
    }
  }

  lemma {:induction false} ProductOfFractions(m: map<string, real>)
    requires forall k :: k in m ==> 0.0 <= m[k] <= 1.0
    ensures 0.0 <= Product(m) <= 1.0
  {
    if m != map[] {
      var l := Least(m.Keys);
      ProductOfFractions(m - {l});
      FractionTimes(m[l], Product(m - {l}));
    }
  }

  lemma TimesSwaps(a: real, b: real)
    ensures Times(a, b) == Times(b, a)
  {
  }

  lemma TimesAssociates(a: real, b: real, c: real)
    ensures Times(a, Times(b, c)) == Times(Times(a, b), c)
  {
  }

  lemma TimesDistributes(a: real, b: real, c: real)
    ensures Times(a, b + c) == Times(a, b) + Times(a, c)
  {
  }

  /** The product is passed by value so that no solver has to look inside it. */
  lemma ProductSign(a: real, b: real, ab: real)
    requires ab == a * b
    ensures (a > 0.0 && b > 0.0) || (a < 0.0 && b < 0.0) ==> ab > 0.0
    ensures a == 0.0 || b == 0.0 ==> ab == 0.0
    ensures (a > 0.0 && b < 0.0) || (a < 0.0 && b > 0.0) ==> ab < 0.0
  {
  }

  lemma FractionTimes(a: real, b: real)
    requires 0.0 <= a <= 1.0 && 0.0 <= b <= 1.0
    ensures 0.0 <= Times(a, b) <= a && Times(a, b) <= b
  {
    ProductSign(a, b, Times(a, b));
    ProductSign(a, 1.0 - b, a * (1.0 - b));
    ProductSign(1.0 - a, b, (1.0 - a) * b);
  }
}
