/** Sorting by a linear order: one arrangement per multiset. */
module Sorting {

  /** Irreflexive, total and transitive on the elements of `s`. */
  ghost predicate LinearOn<T>(less: (T, T) -> bool, s: seq<T>) {
    && (forall a, b :: a in s && b in s ==> (less(a, b) || a == b || less(b, a)) && !(less(a, b) && less(b, a)))
    && (forall a, b, c :: a in s && b in s && c in s && less(a, b) && less(b, c) ==> less(a, c))
  }

  ghost predicate Ordered<T>(less: (T, T) -> bool, s: seq<T>) {
    forall i, j :: 0 <= i < j < |s| ==> !less(s[j], s[i])
  }

  function Insert<T>(less: (T, T) -> bool, x: T, s: seq<T>): seq<T> {
    if s == [] || less(x, s[0]) then [x] + s else [s[0]] + Insert(less, x, s[1..])
  }

  /** A stable sort, as Python's `sorted`. */
  function Sort<T>(less: (T, T) -> bool, s: seq<T>): seq<T> {
    if s == [] then [] else Insert(less, s[0], Sort(less, s[1..]))
  }

  lemma {:induction false} InsertKeepsOrder<T>(less: (T, T) -> bool, x: T, s: seq<T>)
    requires LinearOn(less, [x] + s) && Ordered(less, s)
    ensures Ordered(less, Insert(less, x, s))
  {
    if s != [] {
      assert x in [x] + s && s[0] in [x] + s;
      assert s == [s[0]] + s[1..];
      if less(x, s[0]) {
        forall j | 0 <= j < |s| ensures !less(s[j], x) {
          assert s[j] in [x] + s;
        }
      } else {
        LinearOnPart(less, [x] + s, [x] + s[1..]);
        InsertKeepsOrder(less, x, s[1..]);
        var rest := Insert(less, x, s[1..]);
        InsertPermutes(less, x, s[1..]);
        forall j | 0 <= j < |rest| ensures !less(rest[j], s[0]) {
          assert rest[j] in multiset(s[1..]) + multiset{x};
          if rest[j] != x {
            var k :| 0 <= k < |s[1..]| && s[1..][k] == rest[j];
          }
        }
      }
    }
  }

  lemma LinearOnPart<T>(less: (T, T) -> bool, s: seq<T>, t: seq<T>)
    requires LinearOn(less, s) && forall x :: x in t ==> x in s
    ensures LinearOn(less, t)
  {
  }

  lemma {:induction false} SortSorts<T>(less: (T, T) -> bool, s: seq<T>)
    requires LinearOn(less, s)
    ensures Ordered(less, Sort(less, s)) && multiset(Sort(less, s)) == multiset(s) && |Sort(less, s)| == |s|
  {
    if s != [] {
      var rest := Sort(less, s[1..]);
      assert s == [s[0]] + s[1..];
      LinearOnPart(less, s, s[1..]);
      SortSorts(less, s[1..]);
      SortPermutes(less, s[1..]);
      forall x | x in rest ensures x in s { assert x in multiset(rest); }
      LinearOnPart(less, s, [s[0]] + rest);
      InsertKeepsOrder(less, s[0], rest);
    }
    SortPermutes(less, s);
    assert |multiset(Sort(less, s))| == |multiset(s)|;
  }

  lemma {:induction false} SortPermutes<T>(less: (T, T) -> bool, s: seq<T>)
    ensures multiset(Sort(less, s)) == multiset(s)
  {
    if s != [] {
      SortPermutes(less, s[1..]);
      InsertPermutes(less, s[0], Sort(less, s[1..]));
      assert s == [s[0]] + s[1..];
    }
  }

  lemma {:induction false} InsertPermutes<T>(less: (T, T) -> bool, x: T, s: seq<T>)
    ensures multiset(Insert(less, x, s)) == multiset(s) + multiset{x}
  {
    if s != [] {
      InsertPermutes(less, x, s[1..]);
      assert s == [s[0]] + s[1..];
    }
  }

  lemma LeastIsFirst<T>(less: (T, T) -> bool, s: seq<T>, t: seq<T>)
    requires s != [] && t != [] && LinearOn(less, s) && Ordered(less, s) && Ordered(less, t) && multiset(s) == multiset(t)
    ensures s[0] == t[0]
  {
    assert s[0] in multiset(t) && t[0] in multiset(s);
    var i :| 0 <= i < |t| && t[i] == s[0];
    var j :| 0 <= j < |s| && s[j] == t[0];
  }

  lemma WithoutOne<T>(s: seq<T>, k: nat)
    requires k < |s|
    ensures multiset(s[..k] + s[k + 1..]) == multiset(s) - multiset{s[k]}
  {
    assert s == s[..k] + [s[k]] + s[k + 1..];
  }

  lemma SameWithoutOne<T>(s: seq<T>, t: seq<T>, k: nat)
    requires s != [] && k < |t| && t[k] == s[0]
    ensures multiset(s) == multiset(t) <==> multiset(s[1..]) == multiset(t[..k] + t[k + 1..])
  {
    WithoutOne(s, 0);
    WithoutOne(t, k);
    assert s[..0] + s[1..] == s[1..];
    assert s[0] in multiset(s) && t[k] in multiset(t);
    assert multiset(s) == multiset(s) - multiset{s[0]} + multiset{s[0]};
    assert multiset(t) == multiset(t) - multiset{t[k]} + multiset{t[k]};
  }

  lemma TailOrdered<T>(less: (T, T) -> bool, s: seq<T>)
    requires s != [] && Ordered(less, s)
    ensures Ordered(less, s[1..]) && multiset(s[1..]) == multiset(s) - multiset{s[0]}
  {
    assert s == [s[0]] + s[1..];
  }

  lemma SameLength<T>(s: seq<T>, t: seq<T>)
    requires multiset(s) == multiset(t)
    ensures |s| == |t|
  {
    assert |multiset(s)| == |s| && |multiset(t)| == |t|;
  }

  lemma {:induction false} OrderedIsUnique<T>(less: (T, T) -> bool, s: seq<T>, t: seq<T>)
    requires LinearOn(less, s) && Ordered(less, s) && Ordered(less, t) && multiset(s) == multiset(t)
    ensures s == t
  {
    SameLength(s, t);
    if s != [] {
      LeastIsFirst(less, s, t);
      TailOrdered(less, s);
      TailOrdered(less, t);
      LinearOnPart(less, s, s[1..]);
      hide Ordered, LinearOn;
      OrderedIsUnique(less, s[1..], t[1..]);
      HeadAndTail(s, t);
    }
  }

  lemma HeadAndTail<T>(s: seq<T>, t: seq<T>)
    requires s != [] && t != [] && s[0] == t[0] && s[1..] == t[1..]
    ensures s == t
  {
    assert s == [s[0]] + s[1..] && t == [t[0]] + t[1..];
  }

  lemma Associative<T>(x: seq<T>, y: seq<T>, z: seq<T>)
    ensures (x + y) + z == x + (y + z)
  {
  }

  /** Sorting forgets exactly the arrangement. */
  lemma SortIffMultiset<T>(less: (T, T) -> bool, s: seq<T>, t: seq<T>)
    requires LinearOn(less, s) && LinearOn(less, t)
    ensures Sort(less, s) == Sort(less, t) <==> multiset(s) == multiset(t)
  {
    SortSorts(less, s);
    SortSorts(less, t);
    if multiset(s) == multiset(t) {
      forall x | x in Sort(less, s) ensures x in s { assert x in multiset(Sort(less, s)); }
      LinearOnPart(less, s, Sort(less, s));
      OrderedIsUnique(less, Sort(less, s), Sort(less, t));
    }
  }

  /** Strings compared by code points. */
  predicate TextLess(a: string, b: string)
    decreases |a|
  {
    b != [] && (a == [] || a[0] < b[0] || (a[0] == b[0] && TextLess(a[1..], b[1..])))
  }

  lemma {:induction false} TextLessIsLinear(a: string, b: string)
    ensures TextLess(a, b) || a == b || TextLess(b, a)
    ensures !(TextLess(a, b) && TextLess(b, a)) && !(TextLess(a, b) && a == b)
    decreases |a|
  {
    if a != [] && b != [] {
      TextLessIsLinear(a[1..], b[1..]);
      assert a == [a[0]] + a[1..] && b == [b[0]] + b[1..];
    }
  }

  lemma {:induction false} TextLessIsTransitive(a: string, b: string, c: string)
    requires TextLess(a, b) && TextLess(b, c)
    ensures TextLess(a, c)
    decreases |a|
  {
    if a != [] && a[0] == b[0] == c[0] { TextLessIsTransitive(a[1..], b[1..], c[1..]); }
  }
}
