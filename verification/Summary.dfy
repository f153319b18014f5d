/**
 The figures of a list of numbers: mean, extremes, median, percentiles and variance,
 unrounded.  A percentile interpolates between neighbours of the sorted list.
 */
module Summary {

  function Sum(xs: seq<real>): real {
    if xs == [] then 0.0 else Sum(xs[..|xs| - 1]) + xs[|xs| - 1]
  }

  function Min(xs: seq<real>): (x: real)
    requires xs != []
    ensures x in xs && forall i :: 0 <= i < |xs| ==> x <= xs[i]
  {
    var last := xs[|xs| - 1];
    if |xs| == 1 then last
    else
      var m := Min(xs[..|xs| - 1]);
      if m <= last then m else last
  }

  function Max(xs: seq<real>): (x: real)
    requires xs != []
    ensures x in xs && forall i :: 0 <= i < |xs| ==> xs[i] <= x
  {
    var last := xs[|xs| - 1];
    if |xs| == 1 then last
    else
      var m := Max(xs[..|xs| - 1]);
      if m >= last then m else last
  }

  function Mean(xs: seq<real>): real
    requires xs != []
  {
    Sum(xs) / |xs| as real
  }

  lemma {:induction false} SumBetween(xs: seq<real>, lo: real, hi: real)
    requires forall i :: 0 <= i < |xs| ==> lo <= xs[i] <= hi
    ensures lo * |xs| as real <= Sum(xs) <= hi * |xs| as real
  {
    if xs != [] {
      SumBetween(xs[..|xs| - 1], lo, hi);
    }
  }

  /** The unrounded mean lies between the extremes, and times the count it is the sum. */
  lemma MeanBetween(xs: seq<real>)
    requires xs != []
    ensures Min(xs) <= Mean(xs) <= Max(xs)
    ensures Mean(xs) * |xs| as real == Sum(xs)
  {
    hide Sum, Min, Max;
    SumBetween(xs, Min(xs), Max(xs));
    DivideBounds(Sum(xs), |xs| as real, Min(xs), Max(xs));
  }

  lemma DivideBounds(s: real, n: real, lo: real, hi: real)
    requires n > 0.0 && lo * n <= s <= hi * n
    ensures lo <= s / n <= hi && s / n * n == s
  {
    var m := s / n;
    assert m * n == s;
    if m < lo { TimesLess(m, lo, n); }
    if m > hi { TimesLess(hi, m, n); }
  }

  lemma TimesLess(a: real, b: real, n: real)
    requires a < b && n > 0.0
    ensures a * n < b * n
  {
    assert (b - a) * n > 0.0;
    assert (b - a) * n == b * n - a * n;
  }

  // ------------------------------------------------------------- the sorted list

  predicate Sorted(xs: seq<real>) {
    forall i, j :: 0 <= i < j < |xs| ==> xs[i] <= xs[j]
  }

  function Insert(xs: seq<real>, x: real): seq<real> {
    if xs == [] || x <= xs[0] then [x] + xs else [xs[0]] + Insert(xs[1..], x)
  }

  function Sort(xs: seq<real>): seq<real> {
    if xs == [] then [] else Insert(Sort(xs[..|xs| - 1]), xs[|xs| - 1])
  }

  lemma {:induction false} InsertKeeps(xs: seq<real>, x: real)
    ensures multiset(Insert(xs, x)) == multiset(xs) + multiset{x}
  {
    if xs != [] && x > xs[0] {
      InsertKeeps(xs[1..], x);
      assert xs == [xs[0]] + xs[1..];
    }
  }

  lemma {:induction false} InsertSorts(xs: seq<real>, x: real, lo: real)
    requires Sorted(xs) && lo <= x && forall i :: 0 <= i < |xs| ==> lo <= xs[i]
    ensures Sorted(Insert(xs, x)) && forall i :: 0 <= i < |Insert(xs, x)| ==> lo <= Insert(xs, x)[i]
  {
    if xs != [] && x > xs[0] {
      InsertSorts(xs[1..], x, xs[0]);
    }
  }

  lemma {:induction false} SortSorts(xs: seq<real>)
    ensures Sorted(Sort(xs)) && multiset(Sort(xs)) == multiset(xs) && |Sort(xs)| == |xs|
  {
    hide Insert, Sorted;
    if xs == [] {
      EmptySorted();
    } else {
      var init, last := xs[..|xs| - 1], xs[|xs| - 1];
      SortSorts(init);
      SortStep(Sort(init), last);
      assert xs == init + [last];
      assert |multiset(xs)| == |xs| && |multiset(Sort(xs))| == |Sort(xs)|;
    }
  }

  lemma EmptySorted()
    ensures Sorted([])
  {
  }

  lemma SortStep(s: seq<real>, x: real)
    requires Sorted(s)
    ensures Sorted(Insert(s, x)) && multiset(Insert(s, x)) == multiset(s) + multiset{x}
  {
    InsertKeeps(s, x);
    InsertSorts(s, x, if s != [] && s[0] < x then s[0] else x);
  }

  /** The smallest number comes first. */
  lemma SameFirst(a: seq<real>, b: seq<real>)
    requires Sorted(a) && Sorted(b) && multiset(a) == multiset(b) && a != [] && b != []
    ensures a[0] == b[0]
  {
    assert a[0] in multiset(b) && b[0] in multiset(a);
    var i :| 0 <= i < |b| && b[i] == a[0];
    var j :| 0 <= j < |a| && a[j] == b[0];
  }

  lemma TailMultiset(a: seq<real>)
    requires a != []
    ensures multiset(a[1..]) == multiset(a) - multiset{a[0]}
  {
    assert a == [a[0]] + a[1..];
  }

  lemma SortedTail(a: seq<real>)
    requires Sorted(a) && a != []
    ensures Sorted(a[1..])
  {
  }

  /** Two sorted lists of the same numbers are equal. */
  lemma {:induction false} SortedUnique(a: seq<real>, b: seq<real>)
    requires Sorted(a) && Sorted(b) && multiset(a) == multiset(b)
    ensures a == b
  {
    hide Sorted;
    assert |a| == |multiset(a)| == |multiset(b)| == |b|;
    if a != [] {
      SameFirst(a, b);
      TailMultiset(a);
      TailMultiset(b);
      SortedTail(a);
      SortedTail(b);
      SortedUnique(a[1..], b[1..]);
      assert a == [a[0]] + a[1..] && b == [b[0]] + b[1..];
    }
  }

  // ------------------------------------------------------------- percentiles

  /** The value `i` whole steps and `r` hundredths of a step along a list. */
  function Place(s: seq<real>, i: nat, r: nat): real
    requires s != []
  {
    if i >= |s| - 1 then s[|s| - 1] else s[i] + (s[i + 1] - s[i]) * (r as real / 100.0)
  }

  /** The value `q` percent along a sorted list, between neighbours in proportion. */
  function Along(s: seq<real>, q: nat): real
    requires s != [] && q <= 100
  {
    Place(s, q * (|s| - 1) / 100, q * (|s| - 1) % 100)
  }

  /** `np.percentile` */
  function Percentile(xs: seq<real>, q: nat): real
    requires xs != [] && q <= 100
  {
    SortSorts(xs);
    Along(Sort(xs), q)
  }

  /** `np.median` */
  function Median(xs: seq<real>): real
    requires xs != []
  {
    SortSorts(xs);
    var s, n := Sort(xs), |xs|;
    if n % 2 == 1 then s[n / 2] else (s[n / 2 - 1] + s[n / 2]) / 2.0
  }

  /** The order of the numbers does not matter. */
  lemma PercentileOfSame(xs: seq<real>, ys: seq<real>, q: nat)
    requires xs != [] && ys != [] && q <= 100 && multiset(xs) == multiset(ys)
    ensures Percentile(xs, q) == Percentile(ys, q) && Median(xs) == Median(ys)
  {
    SortSorts(xs);
    SortSorts(ys);
    SortedUnique(Sort(xs), Sort(ys));
  }

  lemma BetweenNeighbours(a: real, b: real, f: real)
    requires a <= b && 0.0 <= f <= 1.0
    ensures a <= a + (b - a) * f <= b
  {
    var d := b - a;
    assert d * f >= 0.0;
    assert d * (1.0 - f) >= 0.0;
    assert d * (1.0 - f) == d - d * f;
  }

  lemma Steeper(d: real, f: real, g: real)
    requires d >= 0.0 && f <= g
    ensures d * f <= d * g
  {
    assert d * (g - f) >= 0.0;
    assert d * (g - f) == d * g - d * f;
  }

  lemma SortedAt(s: seq<real>, i: nat, j: nat)
    requires Sorted(s) && i <= j < |s|
    ensures s[i] <= s[j]
  {
  }

  lemma PlaceIn(s: seq<real>, i: nat, r: nat, lo: real, d: real, f: real)
    requires i + 1 < |s| && lo == s[i] && d == s[i + 1] - s[i] && f == r as real / 100.0
    ensures Place(s, i, r) == lo + d * f
  {
  }

  lemma PlaceBetween(s: seq<real>, i: nat, r: nat)
    requires s != [] && r <= 100 && Sorted(s)
    ensures i < |s| - 1 ==> s[i] <= Place(s, i, r) <= s[i + 1]
  {
    if i < |s| - 1 {
      SortedAt(s, i, i + 1);
      var lo, hi, f := s[i], s[i + 1], r as real / 100.0;
      PlaceIn(s, i, r, lo, hi - lo, f);
      hide *;
      BetweenNeighbours(lo, hi, f);
    }
  }

  lemma SamePlace(s: seq<real>, i: nat, r: nat, r': nat)
    requires i + 1 < |s| && r <= r' && Sorted(s)
    ensures Place(s, i, r) <= Place(s, i, r')
  {
    SortedAt(s, i, i + 1);
    var lo, d, f, f' := s[i], s[i + 1] - s[i], r as real / 100.0, r' as real / 100.0;
    PlaceIn(s, i, r, lo, d, f);
    PlaceIn(s, i, r', lo, d, f');
    hide *;
    Steeper(d, f, f');
  }

  /** Further along a sorted list the values are not smaller. */
  lemma PlaceOrder(s: seq<real>, i: nat, r: nat, i': nat, r': nat)
    requires s != [] && r < 100 && r' < 100 && Sorted(s) && (i < i' || (i == i' && r <= r'))
    ensures Place(s, i, r) <= Place(s, i', r')
  {
    PlaceBetween(s, i, r);
    PlaceBetween(s, i', r');
    if i >= |s| - 1 { PlaceLast(s, i, r); }
    if i' >= |s| - 1 { PlaceLast(s, i', r'); }
    hide *;
    if i < |s| - 1 {
      if i == i' {
        SamePlace(s, i, r, r');
      } else {
        SortedAt(s, i + 1, if i' < |s| - 1 then i' else |s| - 1);
      }
    }
  }

  lemma PlaceLast(s: seq<real>, i: nat, r: nat)
    requires s != [] && i >= |s| - 1
    ensures Place(s, i, r) == s[|s| - 1]
  {
  }

  lemma DivOrder(a: nat, b: nat)
    requires a <= b
    ensures a / 100 < b / 100 || (a / 100 == b / 100 && a % 100 <= b % 100)
  {
  }

  /** A larger percentage never gives a smaller value. */
  lemma AlongMonotone(s: seq<real>, q: nat, q': nat)
    requires s != [] && q <= q' <= 100 && Sorted(s)
    ensures Along(s, q) <= Along(s, q')
  {
    hide Sorted, Place;
    MulMonotone(q, q', |s| - 1);
    var a, b := q * (|s| - 1), q' * (|s| - 1);
    DivOrder(a, b);
    PlaceOrder(s, a / 100, a % 100, b / 100, b % 100);
  }

  lemma MulMonotone(a: nat, b: nat, n: nat)
    requires a <= b
    ensures a * n <= b * n
  {
  }

  lemma AlongEnds(s: seq<real>)
    requires s != []
    ensures Along(s, 0) == s[0] && Along(s, 100) == s[|s| - 1]
  {
    assert 0 * (|s| - 1) == 0 && 100 * (|s| - 1) / 100 == |s| - 1;
  }

  lemma HalfSteps(n: nat)
    requires n > 0
    ensures n % 2 == 1 ==> 50 * (n - 1) / 100 == n / 2 && 50 * (n - 1) % 100 == 0
    ensures n % 2 == 0 ==> 50 * (n - 1) / 100 == n / 2 - 1 && 50 * (n - 1) % 100 == 50
  {
  }

  lemma WholePlace(s: seq<real>, i: nat)
    requires i < |s|
    ensures Place(s, i, 0) == s[i]
    ensures i + 1 < |s| ==> Place(s, i, 50) == (s[i] + s[i + 1]) / 2.0
  {
  }

  /** The median is the 50th percentile. */
  lemma MedianIsHalfway(xs: seq<real>)
    requires xs != []
    ensures Median(xs) == Percentile(xs, 50)
  {
    SortSorts(xs);
    var s, n := Sort(xs), |xs|;
    HalfSteps(n);
    hide Place, Sort, Sorted;
    WholePlace(s, if n % 2 == 1 then n / 2 else n / 2 - 1);
  }

  lemma SortEnds(xs: seq<real>)
    requires xs != []
    ensures var s := Sort(xs); s != [] && s[0] == Min(xs) && s[|s| - 1] == Max(xs)
  {
    SortSorts(xs);
    hide Sort, Min, Max;
    var s := Sort(xs);
    EndsOf(s, xs);
  }

  lemma EndsOf(s: seq<real>, xs: seq<real>)
    requires Sorted(s) && multiset(s) == multiset(xs) && s != [] && xs != []
    ensures s[0] == Min(xs) && s[|s| - 1] == Max(xs)
  {
    hide Min, Max;
    assert s[0] in multiset(xs) && s[|s| - 1] in multiset(xs);
    assert s[0] in xs && s[|s| - 1] in xs;
    assert Min(xs) in multiset(s) && Max(xs) in multiset(s);
    var i :| 0 <= i < |s| && s[i] == Min(xs);
    var j :| 0 <= j < |s| && s[j] == Max(xs);
  }

  /** The figures of a record in order: minimum, 16th percentile, median, 84th, 95th, maximum. */
  lemma FiguresOrdered(xs: seq<real>)
    requires xs != []
    ensures Min(xs) <= Percentile(xs, 16) <= Median(xs) <= Percentile(xs, 84) <= Percentile(xs, 95) <= Max(xs)
  {
    SortSorts(xs);
    SortEnds(xs);
    MedianIsHalfway(xs);
    hide Along, Sort, Median, Min, Max, Sorted;
    var s := Sort(xs);
    AlongEnds(s);
    AlongMonotone(s, 0, 16);
    AlongMonotone(s, 16, 50);
    AlongMonotone(s, 50, 84);
    AlongMonotone(s, 84, 95);
    AlongMonotone(s, 95, 100);
  }

  // ------------------------------------------------------------- variance

  function Squares(xs: seq<real>, m: real): (ys: seq<real>)
    ensures |ys| == |xs| && forall i :: 0 <= i < |ys| ==> ys[i] == (xs[i] - m) * (xs[i] - m)
  {
    seq(|xs|, i requires 0 <= i < |xs| => (xs[i] - m) * (xs[i] - m))
  }

  /** The square of `np.std` */
  function Variance(xs: seq<real>): real
    requires xs != []
  {
    Mean(Squares(xs, Mean(xs)))
  }

  lemma SquareSign(x: real)
    ensures x * x >= 0.0 && (x * x == 0.0 <==> x == 0.0)
  {
    SameSign(x, x);
  }

  lemma SameSign(a: real, b: real)
    requires a > 0.0 <==> b > 0.0
    requires a < 0.0 <==> b < 0.0
    ensures a * b >= 0.0 && (a * b == 0.0 <==> a == 0.0)
  {
  }

  lemma {:induction false} SumZeroIff(ys: seq<real>)
    requires forall i :: 0 <= i < |ys| ==> ys[i] >= 0.0
    ensures Sum(ys) >= 0.0 && (Sum(ys) == 0.0 <==> forall i :: 0 <= i < |ys| ==> ys[i] == 0.0)
  {
    if ys != [] {
      SumZeroIff(ys[..|ys| - 1]);
    }
  }

  lemma DivideSign(s: real, n: real)
    requires n > 0.0 && s >= 0.0
    ensures s / n >= 0.0 && (s / n == 0.0 <==> s == 0.0)
  {
    var m := s / n;
    assert m * n == s;
    if m < 0.0 { TimesLess(m, 0.0, n); }
  }

  /** It is never negative, and zero iff all numbers are the mean. */
  lemma VarianceSign(xs: seq<real>)
    requires xs != []
    ensures Variance(xs) >= 0.0 && (Variance(xs) == 0.0 <==> forall i :: 0 <= i < |xs| ==> xs[i] == Mean(xs))
  {
    var m := Mean(xs);
    var ys := Squares(xs, m);
    forall i | 0 <= i < |xs| ensures ys[i] >= 0.0 && (ys[i] == 0.0 <==> xs[i] == m) {
      SquareSign(xs[i] - m);
    }
    SumZeroIff(ys);
    DivideSign(Sum(ys), |xs| as real);
    hide Sum;
  }

  lemma SquareStep(x: real, m: real)
    ensures (x - m) * (x - m) == x * x - 2.0 * (m * x) + m * m
    ensures (x - 0.0) * (x - 0.0) == x * x
  {
  }

  lemma Distribute(a: real, b: real, c: real)
    ensures a * (b + c) == a * b + a * c && (b + c) * a == b * a + c * a
  {
  }

  lemma SquaresSnoc(xs: seq<real>, x: real, m: real)
    ensures Sum(Squares(xs + [x], m)) == Sum(Squares(xs, m)) + (x - m) * (x - m)
  {
    var all, d := xs + [x], (x - m) * (x - m);
    forall i | 0 <= i < |all| ensures Squares(all, m)[i] == (Squares(xs, m) + [d])[i] {
      if i < |xs| { assert all[i] == xs[i]; } else { assert all[i] == x; }
    }
    assert Squares(all, m) == Squares(xs, m) + [d];
    hide Squares;
    SumSnoc(Squares(xs, m), (x - m) * (x - m));
  }

  lemma SumSnoc(xs: seq<real>, x: real)
    ensures Sum(xs + [x]) == Sum(xs) + x
  {
    assert (xs + [x])[..|xs|] == xs;
  }

  lemma NoSquares(m: real)
    ensures Sum(Squares([], m)) == 0.0 && Sum([]) == 0.0 && m * 0.0 == 0.0 && 0.0 * (m * m) == 0.0
  {
  }

  lemma {:induction false} SquaresSum(xs: seq<real>, m: real)
    ensures Sum(Squares(xs, m)) == Sum(Squares(xs, 0.0)) - 2.0 * (m * Sum(xs)) + |xs| as real * (m * m)
  {
    hide *;
    if xs == [] {
      NoSquares(m);
      NoSquares(0.0);
    } else {
      var init, x := xs[..|xs| - 1], xs[|xs| - 1];
      assert xs == init + [x];
      SquaresSum(init, m);
      SquaresSnoc(init, x, m);
      SquaresSnoc(init, x, 0.0);
      SumSnoc(init, x);
      SquareStep(x, m);
      Distribute(m, Sum(init), x);
      Distribute(m * m, |init| as real, 1.0);
      SquaresStep(Sum(Squares(init, m)), Sum(Squares(init, 0.0)), m * Sum(init), |init| as real * (m * m), (x - m) * (x - m), x * x, m * x, m * m,
                  m * Sum(xs), |xs| as real * (m * m));
    }
  }

  lemma SquaresStep(a: real, b: real, ms: real, nq: real, dd: real, xx: real, mx: real, q: real, ms': real, nq': real)
    requires a == b - 2.0 * ms + nq && dd == xx - 2.0 * mx + q && ms' == ms + mx && nq' == nq + q
    ensures a + dd == b + xx - 2.0 * ms' + nq'
  {
  }

  /** Times the count it is the sum of the squares less the count times the squared mean. */
  lemma VarianceIs(xs: seq<real>)
    requires xs != []
    ensures Variance(xs) * |xs| as real == Sum(Squares(xs, 0.0)) - |xs| as real * (Mean(xs) * Mean(xs))
  {
    hide *;
    var m := Mean(xs);
    VarianceIsMean(xs);
    MeanTimes(xs);
    MeanTimes(Squares(xs, m));
    SquaresSum(xs, m);
    TwiceMean(m, Sum(xs), |xs| as real);
  }

  lemma VarianceIsMean(xs: seq<real>)
    requires xs != []
    ensures Squares(xs, Mean(xs)) != [] && |Squares(xs, Mean(xs))| == |xs| && Variance(xs) == Mean(Squares(xs, Mean(xs)))
  {
    hide Mean;
  }

  lemma MeanTimes(xs: seq<real>)
    requires xs != []
    ensures Mean(xs) * |xs| as real == Sum(xs)
  {
    hide Sum, Min, Max;
    MeanBetween(xs);
  }

  lemma TwiceMean(m: real, s: real, n: real)
    requires m * n == s
    ensures m * s == n * (m * m)
  {
    assert m * (m * n) == n * (m * m);
  }

  /** In a list of `100 * m + 1` numbers the percentiles are elements of the sorted list. */
  lemma PercentileIsElement(xs: seq<real>, m: nat, q: nat)
    requires |xs| == 100 * m + 1 && q <= 100
    ensures q * m < |Sort(xs)| && Percentile(xs, q) == Sort(xs)[q * m]
  {
    SortSorts(xs);
    var s := Sort(xs);
    MulMonotone(q, 100, m);
    Hundred(q, m);
    hide Place;
    WholePlace(s, q * m);
  }

  lemma Hundred(q: nat, m: nat)
    ensures q * (100 * m) / 100 == q * m && q * (100 * m) % 100 == 0
  {
    var x := q * m;
    assert q * (100 * m) == 100 * x;
  }

  predicate EvenSteps(s: seq<real>, a: real, d: real) {
    forall i :: 0 <= i < |s| ==> s[i] == a + d * i as real
  }

  /** In a list whose sorted form has equal steps a percentile lies that part of the whole way along. */
  lemma PercentileOfEvenSteps(xs: seq<real>, s: seq<real>, a: real, d: real, q: nat, at: nat)
    requires xs != [] && q <= 100 && s == Sort(xs) && EvenSteps(s, a, d) && at == q * (|xs| - 1)
    ensures Percentile(xs, q) == a + d * (at as real / 100.0)
  {
    hide *;
    SortSorts(xs);
    WithinSteps(q, |xs| - 1, at);
    PercentilePlace(xs, q, at, at / 100, at % 100);
    EvenPlace(s, a, d, at, at / 100, at % 100);
  }

  lemma WithinSteps(q: nat, n: nat, at: nat)
    requires q <= 100 && at == q * n
    ensures at <= 100 * n
  {
    MulMonotone(q, 100, n);
  }

  lemma PercentilePlace(xs: seq<real>, q: nat, at: nat, i: nat, r: nat)
    requires xs != [] && q <= 100 && at == q * (|xs| - 1) && i == at / 100 && r == at % 100
    ensures Sort(xs) != [] && Percentile(xs, q) == Place(Sort(xs), i, r)
  {
    SortSorts(xs);
    hide Sort, Place;
  }

  lemma EvenPlace(s: seq<real>, a: real, d: real, at: nat, i: nat, r: nat)
    requires s != [] && r < 100 && at == 100 * i + r <= 100 * (|s| - 1) && EvenSteps(s, a, d)
    ensures Place(s, i, r) == a + d * (at as real / 100.0)
  {
    var f := r as real / 100.0;
    assert at as real / 100.0 == i as real + f;
    if i < |s| - 1 {
      var lo, step := s[i], s[i + 1] - s[i];
      EvenStep(a, d, i as real, f);
      PlaceIn(s, i, r, lo, step, f);
    } else {
      assert r == 0 && f == 0.0;
    }
  }

  lemma EvenStep(a: real, d: real, i: real, f: real)
    ensures a + d * (i + 1.0) - (a + d * i) == d
    ensures a + d * i + d * f == a + d * (i + f)
  {
  }
}
