/**
 * The exact mid-ECDF and the scores made from it (sitescore-benchmarks ecdf.py, normalization.py).
 * Percentiles and scores are exact reals; the source rounds only the last division and product.
 */
module Ecdf {
  import opened Prelude
  import opened Rationals
  import opened Sorting

  type Positive = n: int | n > 0 witness 1

  /** A Python number: an int, a finite float with its exact integer ratio, or something to reject. */
  datatype Numeric = Int(n: int) | Float(num: int, den: Positive) | NotFinite | Bool | NotNumeric

  datatype Checked<+T> = Ok(value: T) | TypeError | ValueError

  function CanonicalRatio(v: Numeric): Checked<Ratio> {
    match v
    case Bool => TypeError
    case Int(n) => Ok(Reduce(n, 1))
    case Float(num, den) => Ok(Reduce(num, den))
    case NotFinite => ValueError
    case NotNumeric => TypeError
  }

  /** The number an accepted input denotes. */
  function Exact(v: Numeric): real
    requires v.Int? || v.Float?
  {
    if v.Int? then v.n as real else v.num as real / v.den as real
  }

  /** Accepted inputs have equal canonical ratios exactly if they denote the same number, int or float. */
  lemma CanonicalRatioIffEqual(v: Numeric, w: Numeric)
    requires CanonicalRatio(v).Ok? && CanonicalRatio(w).Ok?
    ensures Canonical(CanonicalRatio(v).value) && Value(CanonicalRatio(v).value) == Exact(v)
    ensures CanonicalRatio(v) == CanonicalRatio(w) <==> Exact(v) == Exact(w)
  {
    CanonicalRatioIsExact(v);
    CanonicalRatioIsExact(w);
    LessIsValueOrder(CanonicalRatio(v).value, CanonicalRatio(w).value);
  }

  lemma CanonicalRatioIsExact(v: Numeric)
    requires CanonicalRatio(v).Ok?
    ensures Canonical(CanonicalRatio(v).value) && Value(CanonicalRatio(v).value) == Exact(v)
  {
    var num, den := if v.Int? then v.n else v.num, if v.Int? then 1 else v.den;
    var r := Reduce(num, den);
    ReduceIsCanonical(num, den);
    hide Reduce;
    SameFraction(r.num, r.den, num, den);
  }

  lemma SameFraction(n1: int, d1: int, n2: int, d2: int)
    requires d1 > 0 && d2 > 0 && n1 * d2 == n2 * d1
    ensures n1 as real / d1 as real == n2 as real / d2 as real
  {
    var x, y := n1 as real / d1 as real, n2 as real / d2 as real;
    var a, b := d1 as real, d2 as real;
    assert (n1 * d2) as real == (x * a) * b == x * (a * b);
    assert (n2 * d1) as real == (y * b) * a == y * (a * b);
    assert a * b > 0.0;
    OrderScales(x, y, a * b);
  }

  // ---- Samples ----

  ghost predicate AllCanonical(s: seq<Ratio>) {
    forall i :: 0 <= i < |s| ==> Canonical(s[i])
  }

  /** Construction checks the values in order and stops at the first one it rejects. */
  function Ratios(values: seq<Numeric>): Checked<seq<Ratio>> {
    if values == [] then Ok([])
    else
      match CanonicalRatio(values[0])
      case TypeError => TypeError
      case ValueError => ValueError
      case Ok(r) =>
        match Ratios(values[1..])
        case TypeError => TypeError
        case ValueError => ValueError
        case Ok(rest) => Ok([r] + rest)
  }

  /** The canonical values of a sample: its ratios in numeric order. */
  function CanonicalValues(values: seq<Numeric>): Checked<seq<Ratio>> {
    match Ratios(values)
    case Ok(s) => Ok(Sort(Less, s))
    case TypeError => TypeError
    case ValueError => ValueError
  }

  lemma {:induction false} RatiosAreCanonical(values: seq<Numeric>)
    requires Ratios(values).Ok?
    ensures AllCanonical(Ratios(values).value) && |Ratios(values).value| == |values|
    ensures forall i :: 0 <= i < |values| ==> CanonicalRatio(values[i]) == Ok(Ratios(values).value[i])
  {
    if values != [] {
      RatiosAreCanonical(values[1..]);
      CanonicalRatioIsExact(values[0]);
    }
  }

  lemma CanonicalIsLinear(s: seq<Ratio>)
    requires AllCanonical(s)
    ensures LinearOn(Less, s)
  {
    forall a, b | a in s && b in s ensures (Less(a, b) || a == b || Less(b, a)) && !(Less(a, b) && Less(b, a)) {
      LessIsLinear(a, b);
    }
    forall a, b, c | a in s && b in s && c in s && Less(a, b) && Less(b, c) ensures Less(a, c) {
      LessIsTransitive(a, b, c);
    }
  }

  /** The canonical values, and so the sample's identity, depend on nothing but the numbers it holds. */
  lemma CanonicalValuesAreTheMultiset(v: seq<Numeric>, w: seq<Numeric>)
    requires Ratios(v).Ok? && Ratios(w).Ok?
    ensures CanonicalValues(v) == CanonicalValues(w) <==> multiset(Ratios(v).value) == multiset(Ratios(w).value)
  {
    RatiosAreCanonical(v);
    RatiosAreCanonical(w);
    CanonicalIsLinear(Ratios(v).value);
    CanonicalIsLinear(Ratios(w).value);
    SortIffMultiset(Less, Ratios(v).value, Ratios(w).value);
  }

  // ---- Counting ----

  function Below(s: seq<Ratio>, q: Ratio): nat {
    if s == [] then 0 else (if Less(s[0], q) then 1 else 0) + Below(s[1..], q)
  }

  function Equal(s: seq<Ratio>, q: Ratio): nat {
    if s == [] then 0 else (if s[0] == q then 1 else 0) + Equal(s[1..], q)
  }

  function Above(s: seq<Ratio>, q: Ratio): nat {
    if s == [] then 0 else (if Less(q, s[0]) then 1 else 0) + Above(s[1..], q)
  }

  /** Twice the mid-rank: what one member contributes, and what a sample adds up to. */
  function Share(m: Ratio, q: Ratio): nat {
    if Less(m, q) then 2 else if m == q then 1 else 0
  }

  function Rank(s: seq<Ratio>, q: Ratio): nat {
    2 * Below(s, q) + Equal(s, q)
  }

  lemma RankStep(s: seq<Ratio>, q: Ratio)
    requires s != [] && Canonical(s[0]) && Canonical(q)
    ensures Rank(s, q) == Share(s[0], q) + Rank(s[1..], q)
  {
    LessIsLinear(s[0], q);
  }

  /** Every member is below, equal to or above the query, and equality of pairs is equality of numbers. */
  lemma {:induction false} CountsPartition(s: seq<Ratio>, q: Ratio)
    requires AllCanonical(s) && Canonical(q)
    ensures Below(s, q) + Equal(s, q) + Above(s, q) == |s|
    ensures Rank(s, q) <= 2 * |s|
  {
    if s != [] {
      LessIsLinear(s[0], q);
      CountsPartition(s[1..], q);
    }
  }

  lemma {:induction false} RankConcat(s: seq<Ratio>, t: seq<Ratio>, q: Ratio)
    ensures Below(s + t, q) == Below(s, q) + Below(t, q) && Equal(s + t, q) == Equal(s, q) + Equal(t, q)
  {
    if s == [] {
      assert s + t == t;
    } else {
      assert (s + t)[1..] == s[1..] + t;
      RankConcat(s[1..], t, q);
    }
  }

  /** Counting does not see the order of the sample. */
  lemma {:induction false} RankOfMultiset(s: seq<Ratio>, t: seq<Ratio>, q: Ratio)
    requires multiset(s) == multiset(t)
    ensures Below(s, q) == Below(t, q) && Equal(s, q) == Equal(t, q)
  {
    assert |multiset(s)| == |s| && |multiset(t)| == |t|;
    if s != [] {
      assert s[0] in multiset(t);
      var k :| 0 <= k < |t| && t[k] == s[0];
      SameWithoutOne(s, t, k);
      hide Less;
      RankOfMultiset(s[1..], t[..k] + t[k + 1..], q);
      RankWithoutOne(t, k, q);
    }
  }

  lemma RankWithoutOne(t: seq<Ratio>, k: nat, q: Ratio)
    requires k < |t|
    ensures Below(t, q) == Below(t[..k] + t[k + 1..], q) + if Less(t[k], q) then 1 else 0
    ensures Equal(t, q) == Equal(t[..k] + t[k + 1..], q) + if t[k] == q then 1 else 0
  {
    hide Less;
    assert t == t[..k] + t[k..] && t[k..][1..] == t[k + 1..];
    RankConcat(t[..k], t[k..], q);
    RankConcat(t[..k], t[k + 1..], q);
  }

  // ---- Percentiles ----

  /** The percentile of a query in canonical values; an empty sample has none. */
  function Percentile(s: seq<Ratio>, q: Ratio): Option<real> {
    if s == [] then None else Some(Rank(s, q) as real / (2 * |s|) as real)
  }

  /** `evaluate_mid_ecdf(build_numeric_sample(values), query).percentile`. */
  function Evaluate(values: seq<Numeric>, query: Numeric): Checked<Option<real>> {
    match CanonicalValues(values)
    case TypeError => TypeError
    case ValueError => ValueError
    case Ok(s) =>
      match CanonicalRatio(query)
      case TypeError => TypeError
      case ValueError => ValueError
      case Ok(q) => Ok(Percentile(s, q))
  }

  lemma DivideOrder(a: int, b: int, d: int)
    requires d > 0
    ensures a as real / d as real < b as real / d as real <==> a < b
    ensures a as real / d as real == b as real / d as real <==> a == b
  {
    var x, y := a as real / d as real, b as real / d as real;
    OrderScales(x, y, d as real);
  }

  lemma PercentileInUnit(s: seq<Ratio>, q: Ratio)
    requires s != [] && AllCanonical(s) && Canonical(q)
    ensures 0.0 <= Percentile(s, q).value <= 1.0
    ensures Percentile(s, q).value == 0.0 <==> Below(s, q) + Equal(s, q) == 0
    ensures Percentile(s, q).value == 1.0 <==> Below(s, q) == |s|
  {
    CountsPartition(s, q);
    hide Canonical, Below, Equal, Above;
    UnitDivision(Rank(s, q), 2 * |s|);
  }

  lemma UnitDivision(a: int, d: int)
    requires 0 <= a <= d && d > 0
    ensures 0.0 <= a as real / d as real <= 1.0
    ensures a as real / d as real == 0.0 <==> a == 0
    ensures a as real / d as real == 1.0 <==> a == d
  {
    var x := a as real / d as real;
    assert x * d as real == a as real;
    OrderScales(x, 0.0, d as real);
    OrderScales(0.0, x, d as real);
    OrderScales(x, 1.0, d as real);
    OrderScales(1.0, x, d as real);
  }

  lemma QuotientIs(v: real, n: real, x: real)
    requires n > 0.0 && x * n == v
    ensures v / n == x
  {
    assert (v / n) * n == v;
    OrderScales(v / n, x, n);
  }

  /** The condition under which a larger query gets a larger percentile. */
  ghost predicate MemberBetween(s: seq<Ratio>, p: Ratio, q: Ratio) {
    exists i :: 0 <= i < |s| && !Less(s[i], p) && !Less(q, s[i])
  }

  lemma {:induction false} RankMonotone(s: seq<Ratio>, p: Ratio, q: Ratio)
    requires AllCanonical(s) && Canonical(p) && Canonical(q) && Less(p, q)
    ensures Rank(s, p) <= Rank(s, q)
    ensures Rank(s, p) < Rank(s, q) <==> MemberBetween(s, p, q)
  {
    if s != [] {
      RankStep(s, p);
      RankStep(s, q);
      RankMonotone(s[1..], p, q);
      ShareMonotone(s[0], p, q);
      if MemberBetween(s[1..], p, q) {
        var i :| 0 <= i < |s[1..]| && !Less(s[1..][i], p) && !Less(q, s[1..][i]);
        assert s[i + 1] == s[1..][i];
      }
      if MemberBetween(s, p, q) && (Less(s[0], p) || Less(q, s[0])) {
        var i :| 0 <= i < |s| && !Less(s[i], p) && !Less(q, s[i]);
        assert s[1..][i - 1] == s[i];
      }
    }
  }

  lemma ShareMonotone(m: Ratio, p: Ratio, q: Ratio)
    requires Canonical(m) && Canonical(p) && Canonical(q) && Less(p, q)
    ensures Share(m, p) <= Share(m, q)
    ensures Share(m, p) < Share(m, q) <==> !Less(m, p) && !Less(q, m)
  {
    LessIsValueOrder(m, p);
    LessIsValueOrder(m, q);
    LessIsValueOrder(p, q);
    LessIsValueOrder(q, m);
  }

  /** The percentile is monotone, and strictly so exactly if a member lies between the two queries. */
  lemma PercentileMonotone(s: seq<Ratio>, p: Ratio, q: Ratio)
    requires s != [] && AllCanonical(s) && Canonical(p) && Canonical(q) && Less(p, q)
    ensures Percentile(s, p).value <= Percentile(s, q).value
    ensures Percentile(s, p).value < Percentile(s, q).value <==> MemberBetween(s, p, q)
  {
    RankMonotone(s, p, q);
    DivideOrder(Rank(s, p), Rank(s, q), 2 * |s|);
  }

  /** What `Evaluate` computes: errors first, then a percentile that depends on the numbers alone. */
  lemma EvaluateIsExact(values: seq<Numeric>, query: Numeric)
    requires Ratios(values).Ok? && CanonicalRatio(query).Ok?
    ensures Evaluate(values, query) == Ok(Percentile(Ratios(values).value, CanonicalRatio(query).value))
    ensures Evaluate(values, query).value.None? <==> values == []
  {
    RatiosAreCanonical(values);
    CanonicalIsLinear(Ratios(values).value);
    SortSorts(Less, Ratios(values).value);
    RankOfMultiset(Sort(Less, Ratios(values).value), Ratios(values).value, CanonicalRatio(query).value);
  }

  // ---- Reflection ----

  function Negated(s: seq<Ratio>): seq<Ratio> {
    seq(|s|, i requires 0 <= i < |s| => Neg(s[i]))
  }

  lemma {:induction false} NegatedRank(s: seq<Ratio>, q: Ratio)
    requires AllCanonical(s) && Canonical(q)
    ensures AllCanonical(Negated(s)) && Canonical(Neg(q))
    ensures Rank(Negated(s), Neg(q)) == 2 * |s| - Rank(s, q)
  {
    NegIsCanonical(q);
    forall i | 0 <= i < |s| ensures Canonical(Neg(s[i])) { NegIsCanonical(s[i]); }
    if s != [] {
      NegatedRank(s[1..], q);
      assert Negated(s)[1..] == Negated(s[1..]);
      RankStep(s, q);
      RankStep(Negated(s), Neg(q));
      LessIsLinear(s[0], q);
      assert Less(Neg(s[0]), Neg(q)) <==> Less(q, s[0]);
    }
  }

  /** Reflecting sample and query reflects the percentile. */
  lemma PercentileReflects(s: seq<Ratio>, q: Ratio)
    requires s != [] && AllCanonical(s) && Canonical(q)
    ensures Percentile(Negated(s), Neg(q)).Some?
    ensures Percentile(Negated(s), Neg(q)).value == 1.0 - Percentile(s, q).value
  {
    NegatedRank(s, q);
    var n, r := (2 * |s|) as real, Rank(s, q) as real;
    assert (2 * |s| - Rank(s, q)) as real == n - r;
    Complement(n, r);
  }

  lemma Complement(n: real, r: real)
    requires n > 0.0
    ensures (n - r) / n == 1.0 - r / n
  {
    var x := r / n;
    assert x * n == r;
    assert (1.0 - x) * n == n - x * n;
    QuotientIs(n - r, n, 1.0 - x);
  }

  // ---- Double counting ----

  /** The ranks of all of `t` within `s`, added up. */
  function TotalRank(s: seq<Ratio>, t: seq<Ratio>): nat {
    if t == [] then 0 else Rank(s, t[0]) + TotalRank(s, t[1..])
  }

  /** What one query gets from the members, and the members from the query, is two for every pair. */
  lemma {:induction false} PairsAddUp(s: seq<Ratio>, t: seq<Ratio>)
    requires AllCanonical(s) && AllCanonical(t)
    ensures TotalRank(s, t) + TotalRank(t, s) == 2 * (|s| * |t|)
  {
    if t == [] {
      EmptyRank(s);
    } else {
      hide Rank, Canonical;
      PairsAddUp(s, t[1..]);
      RankAgainst(s, t[0], t[1..]);
      assert t == [t[0]] + t[1..];
      Distribute(|s|, |t[1..]|, 1);
    }
  }

  lemma {:induction false} EmptyRank(s: seq<Ratio>)
    ensures TotalRank([], s) == 0
  {
    if s != [] { EmptyRank(s[1..]); }
  }

  lemma {:induction false} RankAgainst(s: seq<Ratio>, q: Ratio, t: seq<Ratio>)
    requires AllCanonical(s) && Canonical(q) && AllCanonical(t)
    ensures Rank(s, q) + TotalRank([q] + t, s) == 2 * |s| + TotalRank(t, s)
  {
    if s != [] {
      RankAgainst(s[1..], q, t);
      RankStep(s, q);
      assert ([q] + t)[1..] == t;
      RankStep([q] + t, s[0]);
      LessIsLinear(s[0], q);
    }
  }

  /** Over the members of a sample themselves, twice the mid-ranks add up to the square of its size. */
  lemma MidRanksSumToSquare(s: seq<Ratio>)
    requires AllCanonical(s)
    ensures TotalRank(s, s) == |s| * |s|
  {
    PairsAddUp(s, s);
  }

  function TotalPercentile(s: seq<Ratio>, t: seq<Ratio>): real
    requires s != []
  {
    if t == [] then 0.0 else Percentile(s, t[0]).value + TotalPercentile(s, t[1..])
  }

  lemma {:induction false} TotalPercentileIsTotalRank(s: seq<Ratio>, t: seq<Ratio>)
    requires s != []
    ensures TotalPercentile(s, t) == TotalRank(s, t) as real / (2 * |s|) as real
  {
    if t != [] {
      TotalPercentileIsTotalRank(s, t[1..]);
      AddOver(Rank(s, t[0]) as real, TotalRank(s, t[1..]) as real, (2 * |s|) as real);
    }
  }

  lemma AddOver(a: real, b: real, d: real)
    requires d > 0.0
    ensures a / d + b / d == (a + b) / d
  {
    var x, y := a / d, b / d;
    assert x * d == a && y * d == b;
    assert (x + y) * d == x * d + y * d;
    QuotientIs(a + b, d, x + y);
  }

  /** The mean percentile of a sample's own members is exactly one half. */
  lemma MeanPercentileIsHalf(s: seq<Ratio>)
    requires s != [] && AllCanonical(s)
    ensures TotalPercentile(s, s) / |s| as real == 0.5
  {
    TotalPercentileIsTotalRank(s, s);
    MidRanksSumToSquare(s);
    hide TotalPercentile, TotalRank, Canonical;
    HalfOf(|s|);
  }

  lemma HalfOf(n: int)
    requires n > 0
    ensures ((n * n) as real / (2 * n) as real) / n as real == 0.5
  {
    var m := n as real;
    assert (n * n) as real == m * m && (2 * n) as real == 2.0 * m;
    assert (0.5 * m) * (2.0 * m) == m * m;
    QuotientIs(m * m, 2.0 * m, 0.5 * m);
    QuotientIs(0.5 * m, m, 0.5);
  }

  // ---- Scores ----

  datatype Direction = HigherIsBetter | LowerIsBetter

  /** `transform_percentile`: a percentile outside the unit interval is refused. */
  function Score(d: Direction, percentile: real): Checked<real> {
    if !(0.0 <= percentile <= 1.0) then ValueError
    else if d == HigherIsBetter then Ok(100.0 * percentile)
    else Ok(100.0 * (1.0 - percentile))
  }

  /**
   * Scores stay within 0 and 100, and scoring low values well is the same as scoring the negated
   * sample high.
   */
  lemma ScoreDuality(s: seq<Ratio>, q: Ratio)
    requires s != [] && AllCanonical(s) && Canonical(q)
    ensures Percentile(Negated(s), Neg(q)).Some?
    ensures Score(LowerIsBetter, Percentile(s, q).value) == Score(HigherIsBetter, Percentile(Negated(s), Neg(q)).value)
    ensures Score(HigherIsBetter, Percentile(s, q).value).Ok? && 0.0 <= Score(HigherIsBetter, Percentile(s,
        q).value).value <= 100.0
    ensures Score(LowerIsBetter, Percentile(s, q).value).Ok? && 0.0 <= Score(LowerIsBetter, Percentile(s,
        q).value).value <= 100.0
  {
    PercentileInUnit(s, q);
    PercentileReflects(s, q);
  }

  /** The better of two sites never scores lower, and strictly higher exactly if a benchmark lies between. */
  lemma ScoreOrdersSites(d: Direction, s: seq<Ratio>, p: Ratio, q: Ratio)
    requires s != [] && AllCanonical(s) && Canonical(p) && Canonical(q) && Less(p, q)
    ensures var worse, better := if d == HigherIsBetter then p else q, if d == HigherIsBetter then q else p;
            var low, high := Score(d, Percentile(s, worse).value), Score(d, Percentile(s, better).value);
            low.Ok? && high.Ok? && low.value <= high.value && (low.value < high.value <==> MemberBetween(s, p, q))
  {
    PercentileInUnit(s, p);
    PercentileInUnit(s, q);
    PercentileMonotone(s, p, q);
  }
}
