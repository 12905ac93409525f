/**
 * Admission to recovery (sitescore-commerce recovery.py `seed_candidates`, `run_once`): an active order
 * without a recovery row is seeded through a bounded oldest-first window, and then claimed.
 */
module RecoverySeeding {
  import opened Prelude
  import opened Sorting
  import opened Recovery

  /** The seed window of a run: `max(4 * batch_size, batch_size)`. */
  function Window(size: nat): nat {
    4 * size
  }

  /**
   * `ORDER BY updated_at, order_id LIMIT n` over the waiting orders, each written as a row whose
   * `nextAttemptAt` is its `updated_at`.
   */
  function Oldest(waiting: seq<Row>, n: nat): seq<Row> {
    var sorted := Sort(Before, waiting);
    if |sorted| <= n then sorted else sorted[..n]
  }

  /** The row a run inserts for a waiting order. */
  function Seed(r: Row, now: int): Row {
    Row(r.id, now, now, None, true)
  }

  function SeedAll(rows: seq<Row>, now: int): seq<Row> {
    seq(|rows|, i requires 0 <= i < |rows| => Seed(rows[i], now))
  }

  /** How many waiting orders were updated before `r`. */
  function Older(waiting: seq<Row>, r: Row): nat {
    |Select(waiting, (q: Row) => Before(q, r))|
  }

  /** A run and the orders that wait for their first one when it starts. */
  datatype Cycle = Cycle(round: Round, waiting: seq<Row>)

  /**
   * What waits for the next run: orders this one left waiting and nobody wrote since, and orders written
   * since it started. Orders may also have ended.
   */
  predicate WaitsOn(waiting: seq<Row>, next: seq<Row>, now: int, n: nat) {
    forall q :: q in next ==> q.nextAttemptAt >= now || (q in waiting && q !in Oldest(waiting, n))
  }

  /** A run seeds a waiting order exactly if fewer orders than its window are older. */
  lemma SeededIffOld(waiting: seq<Row>, n: nat, r: Row)
    requires DistinctIds(waiting) && r in waiting
    ensures r in Oldest(waiting, n) <==> Older(waiting, r) < n
  {
    var s, i := Ranked(waiting, r);
    var oldest := Oldest(waiting, n);
    if i < n { assert oldest[i] == r; }
    if r in oldest {
      var k :| 0 <= k < |oldest| && oldest[k] == r;
      assert s[k] == r;
    }
  }

  /** Distinct rows that all occur in `b` are at most as many as `b`. */
  lemma {:induction false} DistinctAmong(a: seq<Row>, b: seq<Row>)
    requires DistinctIds(a) && forall q :: q in a ==> q in b
    ensures |a| <= |b|
  {
    if a != [] {
      assert a[0] in b;
      var k :| 0 <= k < |b| && b[k] == a[0];
      var rest := b[..k] + b[k + 1..];
      forall q | q in a[1..] ensures q in rest {
        var j :| 0 <= j < |a[1..]| && a[1..][j] == q;
        assert a[j + 1].id != a[0].id;
        assert q in b;
        var m :| 0 <= m < |b| && b[m] == q;
        assert rest[if m < k then m else m - 1] == q;
      }
      assert forall j :: 0 <= j < |a[1..]| ==> a[1..][j] == a[j + 1];
      DistinctAmong(a[1..], rest);
    }
  }

  /** A run that leaves an order waiting brings it nearer by the whole window. */
  lemma SeedingBringsNearer(waiting: seq<Row>, next: seq<Row>, now: int, n: nat, r: Row)
    requires DistinctIds(waiting) && DistinctIds(next) && WaitsOn(waiting, next, now, n)
    requires r in waiting && r.nextAttemptAt < now && n <= Older(waiting, r)
    ensures Older(next, r) + n <= Older(waiting, r)
  {
    var s, i := Ranked(waiting, r);
    var before := (q: Row) => Before(q, r);
    var left := (q: Row) => Before(q, r) && q !in s[..n];
    LeftBehind(s, i, n, left);
    SelectOfMultiset(s, waiting, left);
    SelectKeepsDistinct(next, before);
    forall q | q in Select(next, before) ensures q in Select(waiting, left) {
      SelectMembers(next, before, q);
      SelectMembers(waiting, left, q);
    }
    DistinctAmong(Select(next, before), Select(waiting, left));
  }

  // ---- Runs ----

  /** Runs one after another, none of which drops the order from the active ones. */
  ghost predicate CyclesOk(rows: seq<Row>, cycles: seq<Cycle>, size: nat, id: int)
    decreases |cycles|
  {
    cycles != [] ==>
      var x := cycles[0];
      && DistinctIds(x.waiting) && RoundOk(rows, x.round) && ServesForward(x.round) && !x.round.gone(id)
      && x.round.seeded == SeedAll(Oldest(x.waiting, Window(size)), x.round.now)
      && (|cycles| > 1 ==>
            && x.round.now < cycles[1].round.now
            && WaitsOn(x.waiting, cycles[1].waiting, x.round.now, Window(size)))
      && CyclesOk(After(rows, x.round, size), cycles[1..], size, id)
  }

  /** Until it is seeded, `r` waits on: nothing writes it and nobody else seeds it. */
  predicate StaysWaiting(cycles: seq<Cycle>, size: nat, r: Row) {
    forall k :: 0 <= k < |cycles| - 1 && r in cycles[k].waiting && r !in Oldest(cycles[k].waiting, Window(size)) ==>
                  r in cycles[k + 1].waiting
  }

  /** The recovery table after these runs. */
  function Table(rows: seq<Row>, cycles: seq<Cycle>, size: nat): seq<Row>
    decreases |cycles|
  {
    if cycles == [] then rows else Table(After(rows, cycles[0].round, size), cycles[1..], size)
  }

  /** Some of these runs claims the order. */
  predicate Reached(rows: seq<Row>, cycles: seq<Cycle>, size: nat, id: int)
    decreases |cycles|
  {
    cycles != [] &&
    var x := cycles[0].round;
    (exists q :: q in Batch(rows + x.seeded, x.now, size) && q.id == id)
    || Reached(After(rows, x, size), cycles[1..], size, id)
  }

  function Rounds(cycles: seq<Cycle>): seq<Round> {
    seq(|cycles|, i requires 0 <= i < |cycles| => cycles[i].round)
  }

  lemma {:induction false} TableGrows(rows: seq<Row>, cycles: seq<Cycle>, size: nat)
    ensures |rows| <= |Table(rows, cycles, size)|
    decreases |cycles|
  {
    if cycles != [] { TableGrows(After(rows, cycles[0].round, size), cycles[1..], size); }
  }

  lemma {:induction false} CyclesAreRounds(rows: seq<Row>, cycles: seq<Cycle>, size: nat, id: int)
    requires CyclesOk(rows, cycles, size, id)
    ensures RoundsOk(rows, Rounds(cycles), size, id)
    decreases |cycles|
  {
    if cycles != [] {
      CyclesAreRounds(After(rows, cycles[0].round, size), cycles[1..], size, id);
      assert Rounds(cycles)[1..] == Rounds(cycles[1..]);
    }
  }

  lemma {:induction false} ServedIsReached(rows: seq<Row>, cycles: seq<Cycle>, size: nat, r: Row)
    requires Served(rows, Rounds(cycles), size, r)
    ensures Reached(rows, cycles, size, r.id)
    decreases |cycles|
  {
    var x := cycles[0].round;
    if r !in Batch(rows + x.seeded, x.now, size) {
      assert Rounds(cycles)[1..] == Rounds(cycles[1..]);
      ServedIsReached(After(rows, x, size), cycles[1..], size, r);
    }
  }

  lemma {:induction false} SelectFewer(rows: seq<Row>, p: Row -> bool, r: Row)
    requires r in rows && !p(r)
    ensures |Select(rows, p)| < |rows|
  {
    if rows[0] == r {
      SelectAtMost(rows[1..], p);
    } else {
      SelectFewer(rows[1..], p, r);
    }
  }

  lemma {:induction false} SelectAtMost(rows: seq<Row>, p: Row -> bool)
    ensures |Select(rows, p)| <= |rows|
  {
    if rows != [] { SelectAtMost(rows[1..], p); }
  }

  /** An overdue order in the table is claimed once the runs have batches for the whole table. */
  lemma TableIsServed(rows: seq<Row>, cycles: seq<Cycle>, size: nat, r: Row)
    requires size > 0 && CyclesOk(rows, cycles, size, r.id) && r in rows && r.active
    requires cycles != [] && r.nextAttemptAt < cycles[0].round.now && |rows| <= |cycles| * size
    ensures Reached(rows, cycles, size, r.id)
  {
    CyclesAreRounds(rows, cycles, size, r.id);
    SelectFewer(rows, (q: Row) => Due(q, cycles[0].round.now) && Before(q, r), r);
    NoOrderStarves(rows, Rounds(cycles), size, r);
    ServedIsReached(rows, cycles, size, r);
  }

  /** A waiting order is seeded after as many runs as it takes windows to cover the older ones and itself. */
  lemma {:induction false} EveryOrderIsSeeded(rows: seq<Row>, cycles: seq<Cycle>, size: nat, r: Row) returns (k: nat)
    requires CyclesOk(rows, cycles, size, r.id) && StaysWaiting(cycles, size, r)
    requires cycles != [] && r in cycles[0].waiting && r.nextAttemptAt < cycles[0].round.now
    requires Older(cycles[0].waiting, r) < |cycles| * Window(size)
    ensures k < |cycles| && r in Oldest(cycles[k].waiting, Window(size))
    ensures Seed(r, cycles[k].round.now) in cycles[k].round.seeded
    decreases |cycles|
  {
    var x := cycles[0];
    SeededIffOld(x.waiting, Window(size), r);
    if r in Oldest(x.waiting, Window(size)) {
      k := 0;
      SeedOf(Oldest(x.waiting, Window(size)), x.round.now, r);
    } else {
      NextIsNearer(rows, cycles, size, r, |cycles|);
      var rest := cycles[1..];
      assert StaysWaiting(rest, size, r) by { LaterStay(cycles, size, r); }
      var j := EveryOrderIsSeeded(After(rows, x.round, size), rest, size, r);
      k := j + 1;
    }
  }

  lemma SeedOf(rows: seq<Row>, now: int, r: Row)
    requires r in rows
    ensures Seed(r, now) in SeedAll(rows, now)
  {
    var k :| 0 <= k < |rows| && rows[k] == r;
    assert SeedAll(rows, now)[k] == Seed(r, now);
  }

  lemma LaterStay(cycles: seq<Cycle>, size: nat, r: Row)
    requires StaysWaiting(cycles, size, r) && cycles != []
    ensures StaysWaiting(cycles[1..], size, r)
  {
    forall k | 0 <= k < |cycles[1..]| - 1 && r in cycles[1..][k].waiting && r !in Oldest(cycles[1..][k].waiting, Window(size))
      ensures r in cycles[1..][k + 1].waiting
    {
      assert cycles[1..][k] == cycles[k + 1];
    }
  }

  /** A run that does not seed the order leaves it waiting, a window nearer. */
  lemma NextIsNearer(rows: seq<Row>, cycles: seq<Cycle>, size: nat, r: Row, n: nat)
    requires CyclesOk(rows, cycles, size, r.id) && StaysWaiting(cycles, size, r) && 0 < n <= |cycles|
    requires r in cycles[0].waiting && r.nextAttemptAt < cycles[0].round.now
    requires r !in Oldest(cycles[0].waiting, Window(size)) && Older(cycles[0].waiting, r) < n * Window(size)
    ensures n > 1 && r in cycles[1].waiting && r.nextAttemptAt < cycles[1].round.now
    ensures Older(cycles[1].waiting, r) < (n - 1) * Window(size)
  {
    var x, w := cycles[0], Window(size);
    SeededIffOld(x.waiting, w, r);
    assert (n - 1) * w == n * w - w;
    assert n > 1;
    var y := cycles[1];
    assert DistinctIds(y.waiting) by { assert cycles[1..][0] == y; }
    SeedingBringsNearer(x.waiting, y.waiting, x.round.now, w, r);
  }

  /**
   * No active order is forgotten: it is seeded within the first `n` runs if their windows cover the orders
   * older than it, and claimed within the following ones if their batches cover the table.
   */
  lemma {:induction false} NoOrderIsForgotten(rows: seq<Row>, cycles: seq<Cycle>, size: nat, r: Row, n: nat)
    requires size > 0 && CyclesOk(rows, cycles, size, r.id) && StaysWaiting(cycles, size, r) && 0 < n <= |cycles|
    requires r in cycles[0].waiting && r.nextAttemptAt < cycles[0].round.now
    requires Older(cycles[0].waiting, r) < n * Window(size)
    requires |Table(rows, cycles[..n], size)| <= (|cycles| - n) * size
    ensures Reached(rows, cycles, size, r.id)
    decreases n
  {
    var x := cycles[0];
    TableFrom(rows, cycles, size, n);
    CyclesNext(rows, cycles, size, r.id);
    hide CyclesOk;
    if r in Oldest(x.waiting, Window(size)) {
      hide *;
      SeedOf(Oldest(x.waiting, Window(size)), x.round.now, r);
      MoreRuns(|cycles| - n, |cycles[1..]|, size);
      SeededIsReached(rows, cycles, size, Seed(r, x.round.now));
    } else {
      NextIsNearer(rows, cycles, size, r, n);
      LaterStay(cycles, size, r);
      hide After, Older, StaysWaiting, WaitsOn, Oldest, Table, Before, Sort;
      assert |cycles[1..]| - (n - 1) == |cycles| - n;
      NoOrderIsForgotten(After(rows, x.round, size), cycles[1..], size, r, n - 1);
    }
  }

  lemma TableFrom(rows: seq<Row>, cycles: seq<Cycle>, size: nat, n: nat)
    requires 0 < n <= |cycles|
    ensures Table(rows, cycles[..n], size) == Table(After(rows, cycles[0].round, size), cycles[1..][..n - 1], size)
    ensures |After(rows, cycles[0].round, size)| <= |Table(rows, cycles[..n], size)|
  {
    assert cycles[..n][1..] == cycles[1..][..n - 1];
    TableGrows(After(rows, cycles[0].round, size), cycles[1..][..n - 1], size);
  }

  /** A row seeded by the first of these runs is claimed by it, or stays for the later ones. */
  lemma SeededIsReached(rows: seq<Row>, cycles: seq<Cycle>, size: nat, y: Row)
    requires size > 0 && cycles != [] && CyclesOk(rows, cycles, size, y.id)
    requires y in cycles[0].round.seeded && y.active && y.nextAttemptAt == cycles[0].round.now
    requires |After(rows, cycles[0].round, size)| <= |cycles[1..]| * size
    ensures Reached(rows, cycles, size, y.id)
  {
    var x := cycles[0].round;
    CyclesNext(rows, cycles, size, y.id);
    hide CyclesOk, Batch;
    if y !in Batch(rows + x.seeded, x.now, size) {
      StaysInTable(rows, x, size, y);
      hide After, Reached;
      assert cycles[1..] != [];
      TableIsServed(After(rows, x, size), cycles[1..], size, y);
    }
  }

  lemma MoreRuns(a: nat, b: nat, size: nat)
    requires a <= b
    ensures a * size <= b * size
  {
  }

  lemma CyclesNext(rows: seq<Row>, cycles: seq<Cycle>, size: nat, id: int)
    requires CyclesOk(rows, cycles, size, id) && cycles != []
    ensures cycles[0].round.seeded == SeedAll(Oldest(cycles[0].waiting, Window(size)), cycles[0].round.now)
    ensures !cycles[0].round.gone(id) && CyclesOk(After(rows, cycles[0].round, size), cycles[1..], size, id)
    ensures |cycles| > 1 ==> cycles[0].round.now < cycles[1].round.now
  {
  }

  lemma StaysInTable(rows: seq<Row>, x: Round, size: nat, y: Row)
    requires y in x.seeded && y !in Batch(rows + x.seeded, x.now, size) && !x.gone(y.id)
    ensures y in After(rows, x, size)
  {
    var all := rows + x.seeded;
    assert y in all;
    var k :| 0 <= k < |all| && all[k] == y;
    assert After(rows, x, size)[k] == y;
  }
}
