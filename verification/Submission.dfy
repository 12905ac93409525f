/**
 * Idempotent submission of analyses (sitescore-api lifecycle.py `submit`). One submission is two
 * transactions, the insert and, when a unique key refuses it, the lookup; submissions interleave with each
 * other and with everything that later happens to the rows. The answer may be lost on its way back.
 */
module Submission {
  import opened Prelude

  type Id = int

  datatype Key = Key(consumer: int, idempotencyKey: string)

  /** A row of `analyses`: its immutable identity, and the rest, which workers keep changing. */
  datatype Row = Row(key: Key, hash: string, state: string)

  datatype Request = Request(id: Id, key: Key, hash: string)

  datatype Answer = Accepted(key: Key, hash: string, id: Id) | Conflict(key: Key, hash: string) | Failed

  datatype Pc = Inserting(r: Request) | LookingUp(r: Request)

  /** `answers` lists every response that was computed, delivered or not. */
  datatype State = State(rows: map<Id, Row>, dispatches: set<Id>, calls: map<int, Pc>, answers: seq<Answer>)

  datatype Event =
    | Call(t: int, r: Request)
    | Step(t: int)
    | Stop(t: int)
    | Change(id: Id, state: string)  // a worker, a retrieval or a reconciliation moves the row on

  const INIT := State(map[], {}, map[], [])

  predicate KeyTaken(rows: map<Id, Row>, key: Key) {
    exists id :: id in rows && rows[id].key == key
  }

  /** The transaction that inserts the row and its dispatch; a unique key refuses it. */
  function TryInsert(s: State, r: Request): Option<State> {
    if r.id in s.rows || KeyTaken(s.rows, r.key) then None
    else Some(s.(rows := s.rows[r.id := Row(r.key, r.hash, "queued")], dispatches := s.dispatches + {r.id}))
  }

  predicate Holder(rows: map<Id, Row>, key: Key, id: Id) {
    id in rows && rows[id].key == key
  }

  /** The row under the unique key, and what it means for this request. */
  ghost function LookUp(rows: map<Id, Row>, r: Request): Answer {
    if id: Id :| Holder(rows, r.key, id) then
      if rows[id].hash != r.hash then Conflict(r.key, r.hash) else Accepted(r.key, r.hash, id)
    else Failed
  }

  ghost function Respond(s: State, t: int, a: Answer): State {
    s.(calls := s.calls - {t}, answers := s.answers + [a])
  }

  ghost function Apply(s: State, e: Event): State {
    match e
    case Call(t, r) => if t in s.calls then s else s.(calls := s.calls[t := Inserting(r)])
    case Step(t) =>
      if t !in s.calls then s
      else
        (match s.calls[t]
         case Inserting(r) =>
           var inserted := TryInsert(s, r);
           if inserted.Some? then Respond(inserted.value, t, Accepted(r.key, r.hash, r.id))
           else s.(calls := s.calls[t := LookingUp(r)])
         case LookingUp(r) => Respond(s, t, LookUp(s.rows, r)))
    case Stop(t) => s.(calls := s.calls - {t})
    case Change(id, state) => if id in s.rows then s.(rows := s.rows[id := s.rows[id].(state := state)]) else s
  }

  ghost function Run(s: State, es: seq<Event>): State
    decreases |es|
  {
    if es == [] then s else Run(Apply(s, es[0]), es[1..])
  }

  // ---- Invariant ----

  predicate KeysUnique(rows: map<Id, Row>) {
    forall a, b :: a in rows && b in rows && rows[a].key == rows[b].key ==> a == b
  }

  /** An accepted answer names the row its key belongs to; a conflict met a row with another request. */
  predicate AnswerOk(rows: map<Id, Row>, a: Answer) {
    match a
    case Accepted(key, hash, id) => Holder(rows, key, id) && rows[id].hash == hash
    case Conflict(key, hash) => exists id :: id in rows && Holder(rows, key, id) && rows[id].hash != hash
    case Failed => true
  }

  predicate Inv(s: State) {
    && KeysUnique(s.rows)
    && s.dispatches == s.rows.Keys
    && (forall i :: 0 <= i < |s.answers| ==> AnswerOk(s.rows, s.answers[i]))
    && (forall t :: t in s.calls && s.calls[t].LookingUp? ==> Refused(s.rows, s.calls[t].r))
  }

  /** One of the two unique keys stands against this request. */
  predicate Refused(rows: map<Id, Row>, r: Request) {
    r.id in rows || KeyTaken(rows, r.key)
  }

  predicate RowsGrow(before: map<Id, Row>, after: map<Id, Row>) {
    forall id :: id in before ==> id in after && after[id].key == before[id].key && after[id].hash == before[id].hash
  }

  lemma AnswerKept(before: map<Id, Row>, after: map<Id, Row>, a: Answer)
    requires AnswerOk(before, a) && RowsGrow(before, after)
    ensures AnswerOk(after, a)
  {
    if a.Conflict? {
      var id :| id in before && Holder(before, a.key, id) && before[id].hash != a.hash;
      assert id in after && after[id].key == before[id].key;
      assert Holder(after, a.key, id);
    }
  }

  lemma RefusalKept(before: map<Id, Row>, after: map<Id, Row>, r: Request)
    requires RowsGrow(before, after)
    ensures Refused(before, r) ==> Refused(after, r)
    ensures KeyTaken(before, r.key) ==> KeyTaken(after, r.key)
  {
    if KeyTaken(before, r.key) {
      var id :| id in before && before[id].key == r.key;
      assert id in after && after[id].key == r.key;
    }
  }

  lemma LookUpIsOk(rows: map<Id, Row>, r: Request)
    ensures AnswerOk(rows, LookUp(rows, r))
  {
  }

  lemma StepKeepsInv(s: State, e: Event)
    requires Inv(s)
    ensures Inv(Apply(s, e)) && RowsGrow(s.rows, Apply(s, e).rows) && s.answers <= Apply(s, e).answers
  {
    var s' := Apply(s, e);
    if e.Step? && e.t in s.calls && s.calls[e.t].LookingUp? { LookUpIsOk(s.rows, s.calls[e.t].r); }
    assert RowsGrow(s.rows, s'.rows);
    forall i | 0 <= i < |s.answers| ensures AnswerOk(s'.rows, s.answers[i]) { AnswerKept(s.rows, s'.rows, s.answers[i]); }
    forall t | t in s'.calls && s'.calls[t].LookingUp? ensures Refused(s'.rows, s'.calls[t].r) {
      if t in s.calls && s.calls[t].LookingUp? { RefusalKept(s.rows, s'.rows, s.calls[t].r); }
    }
  }

  lemma {:induction false} RunKeepsInv(s: State, es: seq<Event>)
    requires Inv(s)
    ensures Inv(Run(s, es)) && RowsGrow(s.rows, Run(s, es).rows)
    decreases |es|
  {
    hide Inv, Apply;
    if es != [] {
      StepKeepsInv(s, es[0]);
      RunKeepsInv(Apply(s, es[0]), es[1..]);
    }
  }

  // ---- Results ----

  /**
   * One idempotency key is one analysis: however calls are repeated, interleaved or cut off, all accepted
   * answers under a key name the same analysis, for the same request; a refusal means another request
   * holds the key; and every analysis has exactly its one dispatch.
   */
  lemma OneKeyOneAnalysis(es: seq<Event>, i: nat, j: nat)
    requires i < |Run(INIT, es).answers| && j < |Run(INIT, es).answers|
    requires Run(INIT, es).answers[i].Accepted? && !Run(INIT, es).answers[j].Failed?
    requires Run(INIT, es).answers[i].key == Run(INIT, es).answers[j].key
    ensures var a, b := Run(INIT, es).answers[i], Run(INIT, es).answers[j];
            && (b.Accepted? <==> b.hash == a.hash)
            && (b.Accepted? ==> b.id == a.id)
    ensures Run(INIT, es).dispatches == Run(INIT, es).rows.Keys
  {
    RunKeepsInv(INIT, es);
    var s := Run(INIT, es);
    assert AnswerOk(s.rows, s.answers[i]) && AnswerOk(s.rows, s.answers[j]);
  }

  /**
   * A call that waits with its lookup, however long, finds the holder of its key: the lookup fails only for
   * a call that was refused because its analysis id was in use under another key, and then it still is.
   */
  lemma RefusedCallFindsItsRow(es: seq<Event>, t: int)
    requires t in Run(INIT, es).calls && Run(INIT, es).calls[t].LookingUp?
    ensures var s, r := Run(INIT, es), Run(INIT, es).calls[t].r;
            && (LookUp(s.rows, r).Failed? <==> !KeyTaken(s.rows, r.key))
            && (LookUp(s.rows, r).Failed? ==> r.id in s.rows && s.rows[r.id].key != r.key)
  {
    RunKeepsInv(INIT, es);
    var s, r := Run(INIT, es), Run(INIT, es).calls[t].r;
    hide Run;
    LookUpFinds(s.rows, r);
  }

  lemma LookUpFinds(rows: map<Id, Row>, r: Request)
    ensures LookUp(rows, r).Failed? <==> !KeyTaken(rows, r.key)
  {
    if KeyTaken(rows, r.key) {
      var id :| id in rows && rows[id].key == r.key;
      assert Holder(rows, r.key, id);
    }
  }

  /** And a key once taken is found taken by every later lookup. */
  lemma TakenKeyStaysTaken(s: State, es: seq<Event>, r: Request)
    requires Inv(s) && KeyTaken(s.rows, r.key)
    ensures !LookUp(Run(s, es).rows, r).Failed?
  {
    RunKeepsInv(s, es);
    RefusalKept(s.rows, Run(s, es).rows, r);
    LookUpFinds(Run(s, es).rows, r);
  }

  /** The table and its transactional dispatch outbox, changed in place by one uninterrupted `submit`. */
  class AnalysisBackend {
    var rows: map<Id, Row>
    var dispatches: set<Id>

    ghost predicate Valid()
      reads this
    {
      KeysUnique(rows) && dispatches == rows.Keys
    }

    constructor ()
      ensures Valid() && rows == map[]
    {
      rows, dispatches := map[], {};
    }

    method Submit(r: Request) returns (answer: Answer)
      requires Valid()
      modifies this
      ensures Valid()
      ensures !old(KeyTaken(rows, r.key)) && r.id !in old(rows) ==>
                rows == old(rows)[r.id := Row(r.key, r.hash, "queued")] && answer == Accepted(r.key, r.hash, r.id)
      ensures old(KeyTaken(rows, r.key)) || r.id in old(rows) ==> rows == old(rows)
      ensures old(KeyTaken(rows, r.key)) ==> !answer.Failed?
      ensures AnswerOk(rows, answer)
      ensures answer.Failed? <==> r.id in old(rows) && !old(KeyTaken(rows, r.key))
    {
      if r.id !in rows && !(exists id :: id in rows && rows[id].key == r.key) {
        rows := rows[r.id := Row(r.key, r.hash, "queued")];
        dispatches := dispatches + {r.id};
        return Accepted(r.key, r.hash, r.id);
      }
      if id :| id in rows && rows[id].key == r.key {
        assert Holder(rows, r.key, id);
        if rows[id].hash != r.hash { return Conflict(r.key, r.hash); }
        return Accepted(r.key, r.hash, id);
      }
      return Failed;
    }
  }
}
