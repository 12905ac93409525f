/**
 * Scheduling of recovery (sitescore-commerce recovery.py `seed_candidates`, `claim_batch`,
 * `finish_claim`): which orders a run claims, and that none of them waits forever.
 */
module Recovery {
  import opened Prelude
  import opened Sorting

  /** A row of `recovery_state`, with the lease expiry and whether the order is still active. */
  datatype Row = Row(id: int, nextAttemptAt: int, createdAt: int, leaseUntil: Option<int>, active: bool)

  /** `ORDER BY next_attempt_at, created_at, order_id`. */
  predicate Before(a: Row, b: Row) {
    || a.nextAttemptAt < b.nextAttemptAt
    || (a.nextAttemptAt == b.nextAttemptAt && a.createdAt < b.createdAt)
    || (a.nextAttemptAt == b.nextAttemptAt && a.createdAt == b.createdAt && a.id < b.id)
  }

  predicate Due(r: Row, now: int) {
    r.active && r.nextAttemptAt <= now && (r.leaseUntil.None? || r.leaseUntil.value <= now)
  }

  function Select(rows: seq<Row>, p: Row -> bool): seq<Row> {
    if rows == [] then []
    else (if p(rows[0]) then [rows[0]] else []) + Select(rows[1..], p)
  }

  /** The rows a run claims. */
  function Batch(rows: seq<Row>, now: int, size: nat): seq<Row> {
    var due := Sort(Before, Select(rows, (r: Row) => Due(r, now)));
    if |due| <= size then due else due[..size]
  }

  predicate DistinctIds(rows: seq<Row>) {
    forall i, j :: 0 <= i < |rows| && 0 <= j < |rows| && rows[i].id == rows[j].id ==> i == j
  }

  /**
   * One run: when it started, the orders seeded into the table, when each claimed order is due again, and
   * the orders that left the active states before the next run.
   */
  datatype Round = Round(now: int, seeded: seq<Row>, dueAgain: int -> int, gone: int -> bool)

  predicate RoundOk(rows: seq<Row>, x: Round) {
    && DistinctIds(rows + x.seeded)
    && (forall r :: r in x.seeded ==> r.nextAttemptAt == x.now)
    && (forall r :: r in rows + x.seeded ==> r.leaseUntil.None?)
  }

  function AfterRow(r: Row, batch: seq<Row>, x: Round): Row {
    var finished := if r in batch then r.(nextAttemptAt := x.dueAgain(r.id)) else r;
    if x.gone(r.id) then finished.(active := false) else finished
  }

  /** The table after a run that finished every claim inside its lease. */
  function After(rows: seq<Row>, x: Round, size: nat): (r: seq<Row>)
    ensures |r| == |rows + x.seeded|
  {
    var all := rows + x.seeded;
    seq(|all|, i requires 0 <= i < |all| => AfterRow(all[i], Batch(all, x.now, size), x))
  }

  /** How many rows will be claimed before `r`. */
  function Ahead(rows: seq<Row>, now: int, r: Row): nat {
    |Select(rows, (q: Row) => Due(q, now) && Before(q, r))|
  }

  // ---- Selection and order ----

  lemma {:induction false} SelectMembers(rows: seq<Row>, p: Row -> bool, r: Row)
    ensures r in Select(rows, p) <==> r in rows && p(r)
  {
    if rows != [] { SelectMembers(rows[1..], p, r); }
  }

  lemma {:induction false} SelectConcat(a: seq<Row>, b: seq<Row>, p: Row -> bool)
    ensures Select(a + b, p) == Select(a, p) + Select(b, p)
  {
    if a == [] {
      assert a + b == b;
    } else {
      var head := if p(a[0]) then [a[0]] else [];
      assert (a + b)[0] == a[0] && (a + b)[1..] == a[1..] + b;
      SelectConcat(a[1..], b, p);
      Associative(head, Select(a[1..], p), Select(b, p));
    }
  }

  lemma {:induction false} SelectTwice(rows: seq<Row>, p: Row -> bool, q: Row -> bool, both: Row -> bool)
    requires forall r :: r in rows ==> (both(r) <==> p(r) && q(r))
    ensures Select(Select(rows, p), q) == Select(rows, both)
  {
    if rows != [] {
      SelectTwice(rows[1..], p, q, both);
      SelectConcat(if p(rows[0]) then [rows[0]] else [], Select(rows[1..], p), q);
    }
  }

  /** The number of selected rows does not depend on their order. */
  lemma {:induction false} SelectOfMultiset(a: seq<Row>, b: seq<Row>, p: Row -> bool)
    requires multiset(a) == multiset(b)
    ensures |Select(a, p)| == |Select(b, p)|
  {
    assert |multiset(a)| == |a| && |multiset(b)| == |b|;
    if a != [] {
      assert a[0] in multiset(b);
      var k :| 0 <= k < |b| && b[k] == a[0];
      SameWithoutOne(a, b, k);
      SelectOfMultiset(a[1..], b[..k] + b[k + 1..], p);
      SelectWithoutOne(b, k, p);
    }
  }

  lemma SelectWithoutOne(b: seq<Row>, k: nat, p: Row -> bool)
    requires k < |b|
    ensures |Select(b, p)| == |Select(b[..k] + b[k + 1..], p)| + if p(b[k]) then 1 else 0
  {
    assert b == b[..k] + b[k..] && b[k..][1..] == b[k + 1..];
    SelectConcat(b[..k], b[k..], p);
    SelectConcat(b[..k], b[k + 1..], p);
  }

  lemma BeforeIsLinear(rows: seq<Row>)
    requires forall a, b :: a in rows && b in rows && a.id == b.id ==> a == b
    ensures LinearOn(Before, rows)
  {
  }

  /** In an ordered list, the rows before one of its members are exactly those in front of it. */
  lemma {:induction false} PositionIsCount(s: seq<Row>, i: nat)
    requires i < |s| && Ordered(Before, s) && LinearOn(Before, s) && DistinctIds(s)
    ensures |Select(s, (q: Row) => Before(q, s[i]))| == i
  {
    var x := s[i];
    var p := (q: Row) => Before(q, x);
    assert s == s[..i] + s[i..];
    SelectConcat(s[..i], s[i..], p);
    forall j | 0 <= j < i ensures p(s[j]) {
      assert s[j] in s && x in s;
      assert s[j].id != x.id;
    }
    forall j | i <= j < |s| ensures !p(s[j]) {
      assert s[j] in s && x in s;
    }
    SelectAll(s[..i], p);
    SelectNone(s[i..], p);
    assert Select(s, (q: Row) => Before(q, s[i])) == Select(s, p) by { SelectSame(s, (q: Row) => Before(q, s[i]), p); }
  }

  lemma {:induction false} SelectSame(s: seq<Row>, p: Row -> bool, q: Row -> bool)
    requires forall r :: r in s ==> (p(r) <==> q(r))
    ensures Select(s, p) == Select(s, q)
  {
    if s != [] { SelectSame(s[1..], p, q); }
  }

  lemma {:induction false} SelectAll(s: seq<Row>, p: Row -> bool)
    requires forall j :: 0 <= j < |s| ==> p(s[j])
    ensures Select(s, p) == s
  {
    if s != [] { SelectAll(s[1..], p); }
  }

  lemma {:induction false} SelectNone(s: seq<Row>, p: Row -> bool)
    requires forall j :: 0 <= j < |s| ==> !p(s[j])
    ensures Select(s, p) == []
  {
    if s != [] { SelectNone(s[1..], p); }
  }

  // ---- No starvation ----

  /** A claimed order is due again no earlier than the run that served it. */
  ghost predicate ServesForward(x: Round) {
    forall id :: x.dueAgain(id) >= x.now
  }

  lemma DistinctPart(s: seq<Row>, t: seq<Row>)
    requires DistinctIds(s) && multiset(s) == multiset(t)
    ensures DistinctIds(t)
  {
    forall i, j | 0 <= i < j < |t| ensures t[i].id != t[j].id {
      assert t[i] in multiset(s) && t[j] in multiset(s);
      AtMostOnce(s, t[i]);
      OccursTwice(t, i, j);
      assert t[i] in s && t[j] in s;
    }
  }

  lemma OccursTwice(t: seq<Row>, i: nat, j: nat)
    requires i < j < |t|
    ensures t[i] == t[j] ==> multiset(t)[t[i]] >= 2
  {
    assert t == t[..j] + t[j..];
    assert t[..j][i] in multiset(t[..j]) && t[j..][0] in multiset(t[j..]);
  }

  lemma {:induction false} AtMostOnce(s: seq<Row>, r: Row)
    requires DistinctIds(s)
    ensures multiset(s)[r] <= 1
  {
    if s != [] {
      assert s == [s[0]] + s[1..];
      AtMostOnce(s[1..], r);
      if s[0] == r { assert forall k :: 0 <= k < |s[1..]| ==> s[1..][k] == s[k + 1]; }
    }
  }

  lemma {:induction false} SelectKeepsDistinct(rows: seq<Row>, p: Row -> bool)
    requires DistinctIds(rows)
    ensures DistinctIds(Select(rows, p))
  {
    if rows != [] {
      assert forall i :: 0 <= i < |rows[1..]| ==> rows[1..][i] == rows[i + 1];
      SelectKeepsDistinct(rows[1..], p);
      var rest := Select(rows[1..], p);
      forall j | 0 <= j < |rest| ensures rest[j].id != rows[0].id {
        SelectMembers(rows[1..], p, rest[j]);
        var k :| 0 <= k < |rows[1..]| && rows[1..][k] == rest[j];
      }
    }
  }

  /** Sorted rows, in which positions are ranks. */
  lemma Ranked(rows: seq<Row>, r: Row) returns (s: seq<Row>, i: nat)
    requires DistinctIds(rows) && r in rows
    ensures s == Sort(Before, rows) && multiset(s) == multiset(rows)
    ensures i < |s| && s[i] == r && Ordered(Before, s) && LinearOn(Before, s) && DistinctIds(s)
    ensures i == |Select(rows, (q: Row) => Before(q, r))|
  {
    BeforeIsLinear(rows);
    SortSorts(Before, rows);
    s := Sort(Before, rows);
    DistinctPart(rows, s);
    BeforeIsLinear(s);
    assert r in multiset(s);
    i :| 0 <= i < |s| && s[i] == r;
    PositionIsCount(s, i);
    SelectOfMultiset(s, rows, (q: Row) => Before(q, s[i]));
    SelectSame(rows, (q: Row) => Before(q, s[i]), (q: Row) => Before(q, r));
  }

  /** The sorted due rows of a run. */
  lemma SortedDue(all: seq<Row>, now: int, r: Row) returns (s: seq<Row>, i: nat)
    requires DistinctIds(all) && r in all && Due(r, now)
    ensures s == Sort(Before, Select(all, (q: Row) => Due(q, now)))
    ensures i < |s| && s[i] == r && Ordered(Before, s) && LinearOn(Before, s) && DistinctIds(s)
    ensures i == Ahead(all, now, r)
    ensures multiset(s) == multiset(Select(all, (q: Row) => Due(q, now)))
  {
    var due := (q: Row) => Due(q, now);
    SelectKeepsDistinct(all, due);
    SelectMembers(all, due, r);
    s, i := Ranked(Select(all, due), r);
    SelectTwice(all, due, (q: Row) => Before(q, r), (q: Row) => Due(q, now) && Before(q, r));
  }

  lemma {:induction false} SelectPointwise(a: seq<Row>, b: seq<Row>, p: Row -> bool, q: Row -> bool)
    requires |a| == |b| && forall i :: 0 <= i < |a| && p(a[i]) ==> q(b[i])
    ensures |Select(a, p)| <= |Select(b, q)|
  {
    if a != [] { SelectPointwise(a[1..], b[1..], p, q); }
  }

  /** Seeded rows never overtake an order that is already overdue. */
  lemma SeededComeLater(rows: seq<Row>, x: Round, r: Row)
    requires RoundOk(rows, x) && r.nextAttemptAt < x.now
    ensures Ahead(rows + x.seeded, x.now, r) == Ahead(rows, x.now, r)
  {
    var p := (q: Row) => Due(q, x.now) && Before(q, r);
    SelectConcat(rows, x.seeded, p);
    SelectNone(x.seeded, p);
  }

  /** A run claims an overdue order exactly if fewer rows than its batch size are ahead of it. */
  lemma ClaimedIffNear(rows: seq<Row>, x: Round, size: nat, r: Row)
    requires RoundOk(rows, x) && r in rows && r.active && r.nextAttemptAt < x.now
    ensures r in Batch(rows + x.seeded, x.now, size) <==> Ahead(rows, x.now, r) < size
  {
    var all := rows + x.seeded;
    assert r in all;
    var s, i := SortedDue(all, x.now, r);
    SeededComeLater(rows, x, r);
    assert Select(all, (q: Row) => Due(q, x.now)) == Select(all, (r: Row) => Due(r, x.now)) by {
      SelectSame(all, (q: Row) => Due(q, x.now), (r: Row) => Due(r, x.now));
    }
    var batch := Batch(all, x.now, size);
    assert batch == if |s| <= size then s else s[..size];
    if i < size { assert batch[i] == r; }
    if r in batch {
      var k :| 0 <= k < |batch| && batch[k] == r;
      assert s[k] == r;
    }
  }

  /** A run that does not reach an overdue order brings it nearer by the whole batch. */
  lemma RunBringsNearer(rows: seq<Row>, x: Round, size: nat, r: Row, later: int)
    requires RoundOk(rows, x) && ServesForward(x) && r in rows && r.active && r.nextAttemptAt < x.now <= later
    requires size <= Ahead(rows, x.now, r) && !x.gone(r.id)
    ensures r in After(rows, x, size)
    ensures Ahead(After(rows, x, size), later, r) + size <= Ahead(rows, x.now, r)
  {
    var all := rows + x.seeded;
    ClaimedIffNear(rows, x, size, r);
    SeededComeLater(rows, x, r);
    assert r in all;
    var k :| 0 <= k < |all| && all[k] == r;
    assert After(rows, x, size)[k] == r;
    var s, i := SortedDue(all, x.now, r);
    var batch := Batch(all, x.now, size);
    assert batch == s[..size] by {
      SelectSame(all, (q: Row) => Due(q, x.now), (r: Row) => Due(r, x.now));
    }
    var due := (q: Row) => Due(q, x.now);
    var left := (q: Row) => Before(q, r) && q !in batch;
    var ahead := (q: Row) => Due(q, later) && Before(q, r);
    var both := (q: Row) => Due(q, x.now) && Before(q, r) && q !in batch;
    forall j | 0 <= j < |all| && ahead(After(rows, x, size)[j]) ensures both(all[j]) {
      assert all[j] in all;
    }
    SelectPointwise(After(rows, x, size), all, ahead, both);
    SelectTwice(all, due, left, both);
    SelectOfMultiset(s, Select(all, due), left);
    LeftBehind(s, i, size, left);
  }

  /** Of the rows in front of position `i`, those past the batch. */
  lemma LeftBehind(s: seq<Row>, i: nat, size: nat, left: Row -> bool)
    requires size <= i < |s| && Ordered(Before, s) && LinearOn(Before, s) && DistinctIds(s)
    requires forall q :: q in s ==> (left(q) <==> Before(q, s[i]) && q !in s[..size])
    ensures |Select(s, left)| == i - size
  {
    forall j | 0 <= j < size ensures !left(s[..size][j]) {
      assert s[j] in s && s[..size][j] == s[j];
    }
    forall j | 0 <= j < i - size ensures left(s[size..i][j]) { BetweenIsLeft(s, i, size, size + j); }
    forall j | 0 <= j < |s| - i ensures !left(s[i..][j]) {
      assert s[i + j] in s && s[i] in s;
    }
    hide LinearOn, Ordered, DistinctIds, Before;
    SelectMiddle(s, size, i, left);
  }

  lemma BetweenIsLeft(s: seq<Row>, i: nat, size: nat, j: nat)
    requires size <= j < i < |s| && Ordered(Before, s) && LinearOn(Before, s) && DistinctIds(s)
    ensures s[j] in s && Before(s[j], s[i]) && s[j] !in s[..size]
  {
    assert s[j] in s && s[i] in s && s[j].id != s[i].id;
    forall k | 0 <= k < size ensures s[..size][k] != s[j] {
      assert s[k].id != s[j].id;
    }
  }

  lemma SelectMiddle(s: seq<Row>, a: nat, b: nat, p: Row -> bool)
    requires a <= b <= |s|
    requires forall j :: 0 <= j < a ==> !p(s[..a][j])
    requires forall j :: 0 <= j < b - a ==> p(s[a..b][j])
    requires forall j :: 0 <= j < |s| - b ==> !p(s[b..][j])
    ensures |Select(s, p)| == b - a
  {
    assert s == s[..a] + (s[a..b] + s[b..]);
    SelectConcat(s[..a], s[a..b] + s[b..], p);
    SelectConcat(s[a..b], s[b..], p);
    SelectNone(s[..a], p);
    SelectAll(s[a..b], p);
    SelectNone(s[b..], p);
  }

  /** Runs one after another, none of which drops `r` from the active orders. */
  ghost predicate RoundsOk(rows: seq<Row>, rounds: seq<Round>, size: nat, id: int)
    decreases |rounds|
  {
    rounds != [] ==>
      && RoundOk(rows, rounds[0]) && ServesForward(rounds[0]) && !rounds[0].gone(id)
      && (|rounds| > 1 ==> rounds[0].now <= rounds[1].now)
      && RoundsOk(After(rows, rounds[0], size), rounds[1..], size, id)
  }

  /** Some of these runs claims `r`. */
  predicate Served(rows: seq<Row>, rounds: seq<Round>, size: nat, r: Row)
    decreases |rounds|
  {
    rounds != [] && (r in Batch(rows + rounds[0].seeded, rounds[0].now, size) || Served(After(rows, rounds[0], size),
        rounds[1..], size, r))
  }

  /**
   * No overdue order starves: as many runs as it takes batches to cover the rows ahead of it and the
   * order itself will claim it.
   */
  lemma {:induction false} NoOrderStarves(rows: seq<Row>, rounds: seq<Round>, size: nat, r: Row)
    requires size > 0 && RoundsOk(rows, rounds, size, r.id)
    requires r in rows && r.active && rounds != [] && r.nextAttemptAt < rounds[0].now
    requires Ahead(rows, rounds[0].now, r) < |rounds| * size
    ensures Served(rows, rounds, size, r)
    decreases |rounds|
  {
    var x := rounds[0];
    ClaimedIffNear(rows, x, size, r);
    var k := Ahead(rows, x.now, r);
    if k >= size {
      assert (|rounds| - 1) * size == |rounds| * size - size;
      assert |rounds| > 1;
      RunBringsNearer(rows, x, size, r, rounds[1].now);
      var k' := Ahead(After(rows, x, size), rounds[1].now, r);
      assert k' < |rounds[1..]| * size;
      NoOrderStarves(After(rows, x, size), rounds[1..], size, r);
    }
  }
}
