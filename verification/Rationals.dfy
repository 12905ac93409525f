/** Canonical ratios: one pair of integers per rational number (sitescore-benchmarks ecdf.py `_canonical_ratio`). */
module Rationals {

  datatype Ratio = Ratio(num: int, den: int)

  function Abs(n: int): nat {
    if n < 0 then -n else n
  }

  /** Euclid's algorithm, as `math.gcd` on non-negative arguments. */
  function Gcd(a: nat, b: nat): nat
    decreases b
  {
    if b == 0 then a else Gcd(b, a % b)
  }

  ghost predicate Divides(d: int, n: int) {
    exists k :: n == d * k
  }

  ghost predicate Coprime(a: int, b: int) {
    exists x, y :: a * x + b * y == 1
  }

  /** Division of a multiple, exact whatever the sign. */
  function Quotient(n: int, d: int): (q: int)
    requires d > 0 && Divides(d, n)
    ensures d * q == n
  {
    DivExact(n, d);
    n / d
  }

  lemma DivExact(n: int, d: int)
    requires d > 0 && Divides(d, n)
    ensures d * (n / d) == n
  {
    var k :| n == d * k;
    var q, r := n / d, n % d;
    assert d * (k - q) == r;
    SmallMultiple(d, k - q);
  }

  lemma SmallMultiple(d: int, m: int)
    requires d > 0
    ensures 0 <= d * m < d <==> m == 0
  {
    if m > 0 { assert d * m >= d * 1; } else if m < 0 { assert d * m <= d * -1; }
  }

  lemma PositiveProduct(a: int, b: int)
    requires a > 0 && b > 0
    ensures a * b > 0
  {
  }

  lemma ZeroProduct(a: int, b: int)
    requires b != 0
    ensures a * b == 0 <==> a == 0
  {
    if a > 0 && b > 0 { PositiveProduct(a, b); }
    if a > 0 && b < 0 { PositiveProduct(a, -b); }
    if a < 0 && b > 0 { PositiveProduct(-a, b); }
    if a < 0 && b < 0 { PositiveProduct(-a, -b); }
  }

  /** The reduced pair with a positive denominator. */
  function Reduce(num: int, den: int): (r: Ratio)
    requires den != 0
    ensures r.den > 0
  {
    if num == 0 then Ratio(0, 1)
    else
      var g := Gcd(Abs(num), Abs(den));
      GcdDivides(num, den);
      var n, d := Quotient(num, g), Quotient(den, g);
      assert g * d == den;
      if d < 0 then Ratio(-n, -d) else Ratio(n, d)
  }

  lemma {:induction false} GcdBezout(a: nat, b: nat) returns (x: int, y: int, i: nat, j: nat)
    requires a > 0 || b > 0
    ensures Gcd(a, b) > 0
    ensures a * x + b * y == Gcd(a, b)
    ensures a == Gcd(a, b) * i && b == Gcd(a, b) * j
    decreases b
  {
    if b == 0 {
      x, y, i, j := 1, 0, 1, 0;
    } else {
      var q, r := a / b, a % b;
      assert a == b * q + r;
      var u, v, k, l := GcdBezout(b, r);
      var g := Gcd(b, r);
      x, y, i, j := v, u - q * v, k * q + l, k;
      BackSubstitute(a, b, q, r, u, v);
      Recombine(g, a, b, q, r, k, l);
    }
  }

  lemma BackSubstitute(a: int, b: int, q: int, r: int, u: int, v: int)
    requires a == b * q + r
    ensures a * v + b * (u - q * v) == b * u + r * v
  {
    Distribute(v, b * q, r);
    Distribute(b, u, -(q * v));
    assert v * (b * q) == b * (q * v);
    assert b * -(q * v) == -(b * (q * v));
  }

  lemma Recombine(g: int, a: int, b: int, q: int, r: int, k: int, l: int)
    requires a == b * q + r && b == g * k && r == g * l
    ensures a == g * (k * q + l)
  {
    Distribute(g, k * q, l);
    assert g * (k * q) == (g * k) * q;
  }

  lemma GcdDivides(num: int, den: int)
    requires num != 0 || den != 0
    ensures var g := Gcd(Abs(num), Abs(den)); g > 0 && Divides(g, num) && Divides(g, den)
  {
    var g := Gcd(Abs(num), Abs(den));
    var x, y, i, j := GcdBezout(Abs(num), Abs(den));
    var k: int, l: int := i, j;
    assert num == g * k || num == g * -k;
    assert den == g * l || den == g * -l;
  }

  /** The pair denotes the same rational number as the input, and is in lowest terms. */
  lemma ReduceIsCanonical(num: int, den: int)
    requires den != 0
    ensures var r := Reduce(num, den); r.num * den == num * r.den && Coprime(r.num, r.den)
  {
    var r := Reduce(num, den);
    if num == 0 {
      assert r.num * 1 + r.den * 1 == 1;
    } else {
      var g := Gcd(Abs(num), Abs(den));
      GcdDivides(num, den);
      var n, d := Quotient(num, g), Quotient(den, g);
      var x, y := SignedBezout(num, den);
      assert r == (if d < 0 then Ratio(-n, -d) else Ratio(n, d));
      hide Reduce, Quotient, Gcd;
      LowestTerms(g, n, d, num, den, x, y);
      assert d < 0 ==> r.num * (-x) + r.den * (-y) == 1;
    }
  }

  lemma SignedBezout(num: int, den: int) returns (x: int, y: int)
    requires num != 0 || den != 0
    ensures num * x + den * y == Gcd(Abs(num), Abs(den))
  {
    var i, j;
    x, y, i, j := GcdBezout(Abs(num), Abs(den));
    if num < 0 {
      assert num * -x == Abs(num) * x;
      x := -x;
    }
    if den < 0 {
      assert den * -y == Abs(den) * y;
      y := -y;
    }
  }

  lemma LowestTerms(g: int, n: int, d: int, num: int, den: int, x: int, y: int)
    requires g > 0 && num == g * n && den == g * d && num * x + den * y == g
    ensures n * den == num * d && n * x + d * y == 1
  {
    assert n * (g * d) == (g * n) * d;
    calc {
      g * (n * x + d * y);
      { Distribute(g, n * x, d * y); }
      g * (n * x) + g * (d * y);
      { assert g * (n * x) == (g * n) * x; assert g * (d * y) == (g * d) * y; }
      g;
    }
    CancelOne(g, n * x + d * y);
  }

  lemma CancelOne(g: int, k: int)
    requires g > 0 && g * k == g
    ensures k == 1
  {
    ZeroProduct(k - 1, g);
    assert (k - 1) * g == 0;
  }

  /** A factor coprime to one side of a product divides the other. */
  lemma CoprimeDivides(a: int, b: int, c: int)
    requires Coprime(a, b) && Divides(a, b * c)
    ensures Divides(a, c)
  {
    var x, y :| a * x + b * y == 1;
    var k :| b * c == a * k;
    Regroup(a, b, c, x, y, k);
  }

  lemma Regroup(a: int, b: int, c: int, x: int, y: int, k: int)
    requires a * x + b * y == 1 && b * c == a * k
    ensures c == a * (x * c + k * y)
  {
    calc {
      c;
      c * (a * x + b * y);
      { Distribute(c, a * x, b * y); }
      c * (a * x) + c * (b * y);
      { assert c * (a * x) == a * (x * c); assert c * (b * y) == (b * c) * y; }
      a * (x * c) + (a * k) * y;
      { assert (a * k) * y == a * (k * y); }
      a * (x * c) + a * (k * y);
      { Distribute(a, x * c, k * y); }
      a * (x * c + k * y);
    }
  }

  lemma Distribute(a: int, x: int, y: int)
    ensures a * (x + y) == a * x + a * y
  {
  }

  /** Equal rationals have equal canonical pairs: lowest terms with a positive denominator are unique. */
  lemma CanonicalIsUnique(p: Ratio, q: Ratio)
    requires p.den > 0 && q.den > 0 && Coprime(p.num, p.den) && Coprime(q.num, q.den)
    requires p.num * q.den == q.num * p.den
    ensures p == q
  {
    assert Divides(p.den, q.den) by {
      assert p.num * q.den == p.den * q.num;
      CoprimeSymmetric(p.num, p.den);
      CoprimeDivides(p.den, p.num, q.den);
    }
    assert Divides(q.den, p.den) by {
      assert q.num * p.den == q.den * p.num;
      CoprimeSymmetric(q.num, q.den);
      CoprimeDivides(q.den, q.num, p.den);
    }
    MutualDivisors(p.den, q.den);
    CancelFactor(p.num, q.num, p.den);
  }

  lemma CoprimeSymmetric(a: int, b: int)
    requires Coprime(a, b)
    ensures Coprime(b, a)
  {
    var x, y :| a * x + b * y == 1;
    assert b * y + a * x == 1;
  }

  lemma MutualDivisors(a: int, b: int)
    requires a > 0 && b > 0 && Divides(a, b) && Divides(b, a)
    ensures a == b
  {
    DivisorIsSmaller(a, b);
    DivisorIsSmaller(b, a);
  }

  lemma DivisorIsSmaller(a: int, b: int)
    requires a > 0 && b > 0 && Divides(a, b)
    ensures a <= b
  {
    var k :| b == a * k;
    SmallMultiple(a, k);
  }

  lemma CancelFactor(m: int, n: int, d: int)
    requires d > 0 && m * d == n * d
    ensures m == n
  {
    ZeroProduct(m - n, d);
    assert (m - n) * d == 0;
  }

  /** Two inputs reduce to the same pair exactly if they are the same rational number. */
  lemma ReduceIffEqual(n1: int, d1: int, n2: int, d2: int)
    requires d1 != 0 && d2 != 0
    ensures Reduce(n1, d1) == Reduce(n2, d2) <==> n1 * d2 == n2 * d1
  {
    var p, q := Reduce(n1, d1), Reduce(n2, d2);
    ReduceIsCanonical(n1, d1);
    ReduceIsCanonical(n2, d2);
    hide Reduce, Coprime;
    Interchange(p.num, d1, q.den, d2, n1, p.den);
    Interchange(q.num, d2, p.den, d1, n2, q.den);
    SameEquality(p.num * q.den, n1 * d2, q.num * p.den, n2 * d1, d1 * d2, p.den * q.den) by {
      ZeroProduct(d1, d2);
      PositiveProduct(p.den, q.den);
      assert q.den * p.den == p.den * q.den && d2 * d1 == d1 * d2;
    }
    if p.num * q.den == q.num * p.den { CanonicalIsUnique(p, q); }
  }

  /** From a * d == n * b, the product of the left fraction's parts with any others. */
  lemma Interchange(a: int, d: int, e: int, f: int, n: int, b: int)
    requires a * d == n * b
    ensures (a * e) * (d * f) == (n * f) * (b * e)
  {
    calc {
      (a * e) * (d * f);
      { assert (a * e) * (d * f) == (a * d) * (e * f); }
      (a * d) * (e * f);
      (n * b) * (e * f);
      { assert (n * b) * (e * f) == (n * f) * (b * e); }
      (n * f) * (b * e);
    }
  }

  /** x * k == y * m and x' * k == y' * m, with k and m nonzero: x == x' exactly if y == y'. */
  lemma SameEquality(x: int, y: int, x': int, y': int, k: int, m: int)
    requires k != 0 && m != 0 && x * k == y * m && x' * k == y' * m
    ensures x == x' <==> y == y'
  {
    ZeroProduct(x - x', k);
    ZeroProduct(y - y', m);
    assert (x - x') * k == (y - y') * m;
  }

  // ---- Order ----

  function Value(r: Ratio): real
    requires r.den != 0
  {
    r.num as real / r.den as real
  }

  predicate Less(p: Ratio, q: Ratio) {
    p.num * q.den < q.num * p.den
  }

  ghost predicate Canonical(r: Ratio) {
    r.den > 0 && Coprime(r.num, r.den)
  }

  /** Cross multiplication compares values, and equality of canonical pairs is equality of values. */
  lemma LessIsValueOrder(p: Ratio, q: Ratio)
    requires Canonical(p) && Canonical(q)
    ensures Less(p, q) <==> Value(p) < Value(q)
    ensures p == q <==> Value(p) == Value(q)
  {
    var a, b := p.den as real, q.den as real;
    assert Value(p) * a == p.num as real && Value(q) * b == q.num as real;
    assert (p.num * q.den) as real == (Value(p) * a) * b == Value(p) * (a * b);
    assert (q.num * p.den) as real == (Value(q) * b) * a == Value(q) * (a * b);
    assert a * b > 0.0;
    OrderScales(Value(p), Value(q), a * b);
    if Value(p) == Value(q) {
      assert p.num * q.den == q.num * p.den;
      CanonicalIsUnique(p, q);
    }
  }

  lemma OrderScales(x: real, y: real, k: real)
    requires k > 0.0
    ensures x < y <==> x * k < y * k
    ensures x == y <==> x * k == y * k
  {
    assert (y - x) * k == y * k - x * k;
    if x < y { assert (y - x) * k > 0.0; } else if y < x { assert (x - y) * k > 0.0; }
  }

  /** Canonical ratios are linearly ordered. */
  lemma LessIsLinear(p: Ratio, q: Ratio)
    requires Canonical(p) && Canonical(q)
    ensures Less(p, q) || p == q || Less(q, p)
    ensures !(Less(p, q) && Less(q, p)) && !(Less(p, q) && p == q)
  {
    LessIsValueOrder(p, q);
    LessIsValueOrder(q, p);
  }

  lemma LessIsTransitive(p: Ratio, q: Ratio, r: Ratio)
    requires Canonical(p) && Canonical(q) && Canonical(r) && Less(p, q) && Less(q, r)
    ensures Less(p, r)
  {
    LessIsValueOrder(p, q);
    LessIsValueOrder(q, r);
    LessIsValueOrder(p, r);
  }

  function Neg(r: Ratio): Ratio {
    Ratio(-r.num, r.den)
  }

  lemma NegIsCanonical(r: Ratio)
    requires Canonical(r)
    ensures Canonical(Neg(r))
  {
    var x, y :| r.num * x + r.den * y == 1;
    assert (-r.num) * (-x) + r.den * y == 1;
  }
}
