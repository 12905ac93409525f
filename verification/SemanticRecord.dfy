/**
 * The recursive semantic record by which the application notices a changed core input
 * (sitescore-app analysis_adapter.py `_semantic_record`).
 *
 * Python's `repr` and `float.hex` are parameters. The first is assumed to tell different records
 * apart, the second to tell different floats apart; all NaNs print alike. Subclasses of the builtin types
 * are assumed to inherit comparison, `repr`, `hex` and iteration.
 */
module SemanticRecord {
  import opened Prelude
  import opened Sorting

  /** A float is a number, infinities and both zeros included, or one of the many NaNs. */
  datatype Double = NaN(payload: int) | Finite(bits: int)

  /** A class, told by where it is defined. */
  datatype Class = Class(moduleName: string, qualname: string)

  /**
   * The Python values a record can be asked for; `Unsupported` is any other. The record dispatches with
   * `isinstance`, so an instance of a subclass of a builtin type is a value of that type, with its class.
   */
  datatype Value =
    | PyNone
    | PyEnum(enumClass: Class, value: Value)
    | PyBool(b: bool)
    | PyInt(n: int, cls: Class)
    | PyFloat(f: Double, cls: Class)
    | PyStr(s: string, cls: Class)
    | PyDict(entries: seq<(Value, Value)>, cls: Class)  // in iteration order
    | PyTuple(elements: seq<Value>, cls: Class)
    | PyList(elements: seq<Value>, cls: Class)
    | PyData(dataClass: Class, fields: seq<(string, Value)>)
    | Unsupported

  function Builtin(name: string): Class {
    Class("builtins", name)
  }

  /** Nested tuples of strings, booleans and integers. */
  datatype Record = Text(s: string) | Truth(b: bool) | Number(n: int) | Tuple(items: seq<Record>)

  datatype Python = Python(repr: Record -> string, hex: Double -> string)

  ghost predicate Faithful(py: Python) {
    && (forall a, b :: py.repr(a) == py.repr(b) ==> a == b)
    && (forall x, y :: py.hex(x) == py.hex(y) <==> SameFloat(x, y))
  }

  predicate SameFloat(x: Double, y: Double) {
    x == y || (x.NaN? && y.NaN?)
  }

  function ByRepr(py: Python): (Record, Record) -> bool {
    (a, b) => TextLess(py.repr(a), py.repr(b))
  }

  // ---- The record ----

  predicate Supported(v: Value) {
    match v
    case PyEnum(_, inner) => Supported(inner)
    case PyDict(entries, _) => forall i :: 0 <= i < |entries| ==> Supported(entries[i].0) && Supported(entries[i].1)
    case PyTuple(elements, _) => forall i :: 0 <= i < |elements| ==> Supported(elements[i])
    case PyList(elements, _) => forall i :: 0 <= i < |elements| ==> Supported(elements[i])
    case PyData(_, fields) => forall i :: 0 <= i < |fields| ==> Supported(fields[i].1)
    case Unsupported => false
    case _ => true
  }

  function RecordOf(py: Python, v: Value): Record
    decreases v, 1
  {
    match v
    case PyNone => Tuple([Text("none")])
    case PyEnum(k, inner) => Tuple([Text("enum"), Text(k.moduleName), Text(k.qualname), RecordOf(py, inner)])
    case PyBool(b) => Tuple([Text("bool"), Truth(b)])
    case PyInt(n, _) => Tuple([Text("int"), Number(n)])
    case PyFloat(f, _) => Tuple([Text("float"), Text(py.hex(f))])
    case PyStr(t, _) => Tuple([Text("str"), Text(t)])
    case PyDict(_, _) => Tuple([Text("dict"), Tuple(Sort(ByRepr(py), EntryRecords(py, v)))])
    case PyTuple(_, _) => Tuple([Text("tuple"), Tuple(ElementRecords(py, v))])
    case PyList(_, _) => Tuple([Text("list"), Tuple(ElementRecords(py, v))])
    case PyData(k, _) => Tuple([Text("dataclass"), Text(k.moduleName), Text(k.qualname), Tuple(FieldRecords(py, v))])
    case Unsupported => Tuple([])
  }

  function EntryRecords(py: Python, v: Value): (r: seq<Record>)
    requires v.PyDict?
    ensures |r| == |v.entries|
    decreases v, 0
  {
    seq(|v.entries|, i requires 0 <= i < |v.entries| => Tuple([RecordOf(py, v.entries[i].0), RecordOf(py, v.entries[i].1)]))
  }

  function ElementRecords(py: Python, v: Value): (r: seq<Record>)
    requires v.PyTuple? || v.PyList?
    ensures |r| == |v.elements|
    decreases v, 0
  {
    seq(|v.elements|, i requires 0 <= i < |v.elements| => RecordOf(py, v.elements[i]))
  }

  function FieldRecords(py: Python, v: Value): (r: seq<Record>)
    requires v.PyData?
    ensures |r| == |v.fields|
    decreases v, 0
  {
    seq(|v.fields|, i requires 0 <= i < |v.fields| => Tuple([Text(v.fields[i].0), RecordOf(py, v.fields[i].1)]))
  }

  /** `_semantic_record`; None stands for its TypeError. */
  function SemanticRecord(py: Python, v: Value): Option<Record> {
    if Supported(v) then Some(RecordOf(py, v)) else None
  }

  /** Python's `==` on records: True equals 1 and False equals 0. */
  predicate PyEqual(a: Record, b: Record)
    decreases a
  {
    match a
    case Text(s) => b == Text(s)
    case Tuple(items) => b.Tuple? && |b.items| == |items| && forall i :: 0 <= i < |items| ==> PyEqual(items[i], b.items[i])
    case Truth(t) => b == Truth(t) || b == Number(if t then 1 else 0)
    case Number(n) => b == Number(n) || (b == Truth(true) && n == 1) || (b == Truth(false) && n == 0)
  }

  // ---- Structural equality ----

  /**
   * The same values all the way down: the same kinds, the same floats but for NaNs, dictionaries as
   * unordered collections. `typed` says whether subclasses of builtin types are told apart.
   */
  predicate Same(v: Value, w: Value, typed: bool)
    decreases v, 1
  {
    match v
    case PyEnum(k, inner) => w.PyEnum? && w.enumClass == k && Same(inner, w.value, typed)
    case PyInt(n, k) => w.PyInt? && w.n == n && (typed ==> w.cls == k)
    case PyFloat(f, k) => w.PyFloat? && SameFloat(f, w.f) && (typed ==> w.cls == k)
    case PyStr(t, k) => w.PyStr? && w.s == t && (typed ==> w.cls == k)
    case PyDict(entries, k) => w.PyDict? && (typed ==> w.cls == k) && SameEntries(v, entries, w.entries, typed)
    case PyTuple(_, k) => w.PyTuple? && (typed ==> w.cls == k) && SameElements(v, w.elements, typed)
    case PyList(_, k) => w.PyList? && (typed ==> w.cls == k) && SameElements(v, w.elements, typed)
    case PyData(k, _) => w.PyData? && w.dataClass == k && SameFields(v, w.fields, typed)
    case _ => w == v
  }

  predicate SameElements(v: Value, ys: seq<Value>, typed: bool)
    requires v.PyTuple? || v.PyList?
    decreases v, 0
  {
    |ys| == |v.elements| && forall i :: 0 <= i < |ys| ==> Same(v.elements[i], ys[i], typed)
  }

  predicate SameFields(v: Value, ys: seq<(string, Value)>, typed: bool)
    requires v.PyData?
    decreases v, 0
  {
    |ys| == |v.fields| && forall i :: 0 <= i < |ys| ==> v.fields[i].0 == ys[i].0 && Same(v.fields[i].1, ys[i].1, typed)
  }

  /** The entries `xs` of `v` can be matched one to one with `ys`. */
  predicate SameEntries(v: Value, xs: seq<(Value, Value)>, ys: seq<(Value, Value)>, typed: bool)
    requires v.PyDict? && forall i :: 0 <= i < |xs| ==> xs[i] in v.entries
    decreases v, 0, |xs|
  {
    if xs == [] then ys == []
    else
      exists k :: 0 <= k < |ys| && Same(xs[0].0, ys[k].0, typed) && Same(xs[0].1, ys[k].1, typed)
                  && SameEntries(v, xs[1..], ys[..k] + ys[k + 1..], typed)
  }

  /** No instance of a proper subclass of a builtin type occurs. */
  predicate Plain(v: Value)
    decreases v
  {
    match v
    case PyEnum(_, inner) => Plain(inner)
    case PyInt(_, k) => k == Builtin("int")
    case PyFloat(_, k) => k == Builtin("float")
    case PyStr(_, k) => k == Builtin("str")
    case PyDict(entries, k) =>
      k == Builtin("dict") && forall i :: 0 <= i < |entries| ==> Plain(entries[i].0) && Plain(entries[i].1)
    case PyTuple(elements, k) => k == Builtin("tuple") && forall i :: 0 <= i < |elements| ==> Plain(elements[i])
    case PyList(elements, k) => k == Builtin("list") && forall i :: 0 <= i < |elements| ==> Plain(elements[i])
    case PyData(_, fields) => forall i :: 0 <= i < |fields| ==> Plain(fields[i].1)
    case _ => true
  }

  /** Types are all that telling subclasses apart adds, and plain values have none to tell apart. */
  lemma {:induction false} TypedRefinesUntyped(v: Value, w: Value)
    ensures Same(v, w, true) ==> Same(v, w, false)
    ensures Plain(v) && Plain(w) && Same(v, w, false) ==> Same(v, w, true)
    decreases v, 1
  {
    if v.PyEnum? && w.PyEnum? {
      TypedRefinesUntyped(v.value, w.value);
    } else if v.PyDict? && w.PyDict? {
      if SameEntries(v, v.entries, w.entries, true) { UntypedEntries(v, v.entries, w.entries); }
      if Plain(v) && Plain(w) && SameEntries(v, v.entries, w.entries, false) { TypedEntries(v, v.entries, w.entries); }
    } else if (v.PyTuple? && w.PyTuple?) || (v.PyList? && w.PyList?) {
      TypedElements(v, w.elements);
    } else if v.PyData? && w.PyData? {
      TypedFields(v, w.fields);
    }
  }

  lemma {:induction false} TypedElements(v: Value, ys: seq<Value>)
    requires v.PyTuple? || v.PyList?
    ensures SameElements(v, ys, true) ==> SameElements(v, ys, false)
    ensures AllPlain(v.elements) && AllPlain(ys) && SameElements(v, ys, false) ==> SameElements(v, ys, true)
    decreases v, 0
  {
    forall i | 0 <= i < |v.elements| && i < |ys| { TypedRefinesUntyped(v.elements[i], ys[i]); }
  }

  lemma {:induction false} TypedFields(v: Value, ys: seq<(string, Value)>)
    requires v.PyData?
    ensures SameFields(v, ys, true) ==> SameFields(v, ys, false)
    ensures PlainFields(v.fields) && PlainFields(ys) && SameFields(v, ys, false) ==> SameFields(v, ys, true)
    decreases v, 0
  {
    forall i | 0 <= i < |v.fields| && i < |ys| { TypedRefinesUntyped(v.fields[i].1, ys[i].1); }
  }

  lemma {:induction false} UntypedEntries(v: Value, xs: seq<(Value, Value)>, ys: seq<(Value, Value)>)
    requires v.PyDict? && forall i :: 0 <= i < |xs| ==> xs[i] in v.entries
    requires SameEntries(v, xs, ys, true)
    ensures SameEntries(v, xs, ys, false)
    decreases v, 0, |xs|
  {
    if xs != [] {
      assert xs[0] in v.entries;
      var k := FirstMatch(v, xs, ys, true);
      hide Same, SameEntries, Plain;
      TypedRefinesUntyped(xs[0].0, ys[k].0);
      TypedRefinesUntyped(xs[0].1, ys[k].1);
      UntypedEntries(v, xs[1..], ys[..k] + ys[k + 1..]);
      MatchFirst(v, xs, ys, k, false);
    }
  }

  lemma {:induction false} TypedEntries(v: Value, xs: seq<(Value, Value)>, ys: seq<(Value, Value)>)
    requires v.PyDict? && forall i :: 0 <= i < |xs| ==> xs[i] in v.entries
    requires PlainEntries(xs) && PlainEntries(ys) && SameEntries(v, xs, ys, false)
    ensures SameEntries(v, xs, ys, true)
    decreases v, 0, |xs|
  {
    if xs != [] {
      assert xs[0] in v.entries;
      var k := FirstMatch(v, xs, ys, false);
      hide Same, SameEntries, Plain;
      TypedRefinesUntyped(xs[0].0, ys[k].0);
      TypedRefinesUntyped(xs[0].1, ys[k].1);
      TypedEntries(v, xs[1..], ys[..k] + ys[k + 1..]);
      MatchFirst(v, xs, ys, k, true);
    }
  }

  lemma FirstMatch(v: Value, xs: seq<(Value, Value)>, ys: seq<(Value, Value)>, typed: bool) returns (k: nat)
    requires v.PyDict? && xs != [] && forall i :: 0 <= i < |xs| ==> xs[i] in v.entries
    requires SameEntries(v, xs, ys, typed)
    ensures k < |ys| && Same(xs[0].0, ys[k].0, typed) && Same(xs[0].1, ys[k].1, typed)
    ensures SameEntries(v, xs[1..], ys[..k] + ys[k + 1..], typed)
  {
    k :| 0 <= k < |ys| && Same(xs[0].0, ys[k].0, typed) && Same(xs[0].1, ys[k].1, typed)
         && SameEntries(v, xs[1..], ys[..k] + ys[k + 1..], typed);
  }

  lemma MatchFirst(v: Value, xs: seq<(Value, Value)>, ys: seq<(Value, Value)>, k: nat, typed: bool)
    requires v.PyDict? && xs != [] && k < |ys| && forall i :: 0 <= i < |xs| ==> xs[i] in v.entries
    requires Same(xs[0].0, ys[k].0, typed) && Same(xs[0].1, ys[k].1, typed)
    requires SameEntries(v, xs[1..], ys[..k] + ys[k + 1..], typed)
    ensures SameEntries(v, xs, ys, typed)
  {
  }

  predicate AllPlain(xs: seq<Value>) {
    forall i :: 0 <= i < |xs| ==> Plain(xs[i])
  }

  predicate PlainFields(xs: seq<(string, Value)>) {
    forall i :: 0 <= i < |xs| ==> Plain(xs[i].1)
  }

  predicate PlainEntries(xs: seq<(Value, Value)>) {
    forall i :: 0 <= i < |xs| ==> Plain(xs[i].0) && Plain(xs[i].1)
  }

  // ---- Orders ----

  lemma ReprIsLinear(py: Python, s: seq<Record>)
    requires Faithful(py)
    ensures LinearOn(ByRepr(py), s)
  {
    var less := ByRepr(py);
    forall a, b | a in s && b in s ensures (less(a, b) || a == b || less(b, a)) && !(less(a, b) && less(b, a)) {
      TextLessIsLinear(py.repr(a), py.repr(b));
    }
    forall a, b, c | a in s && b in s && c in s && less(a, b) && less(b, c) ensures less(a, c) {
      TextLessIsTransitive(py.repr(a), py.repr(b), py.repr(c));
    }
  }

  // ---- Records against values ----

  function EntryRecord(py: Python, x: (Value, Value)): Record {
    Tuple([RecordOf(py, x.0), RecordOf(py, x.1)])
  }

  function EntryList(py: Python, xs: seq<(Value, Value)>): (r: seq<Record>)
    ensures |r| == |xs| && forall i :: 0 <= i < |xs| ==> r[i] == EntryRecord(py, xs[i])
  {
    seq(|xs|, i requires 0 <= i < |xs| => EntryRecord(py, xs[i]))
  }

  /** Two supported values have the same record exactly if they are the same up to subclasses of builtin types. */
  lemma {:induction false} RecordIffSame(py: Python, v: Value, w: Value)
    requires Faithful(py) && Supported(v) && Supported(w)
    ensures RecordOf(py, v) == RecordOf(py, w) <==> Same(v, w, false)
    decreases v, 1
  {
    if v.PyEnum? && w.PyEnum? {
      RecordIffSame(py, v.value, w.value);
    } else if v.PyDict? && w.PyDict? {
      DictIffSame(py, v, w);
    } else if (v.PyTuple? && w.PyTuple?) || (v.PyList? && w.PyList?) {
      ElementsIffSame(py, v, w);
    } else if v.PyData? && w.PyData? {
      FieldsIffSame(py, v, w);
    } else {
      TagsDiffer(py, v, w);
    }
  }

  lemma TagsDiffer(py: Python, v: Value, w: Value)
    requires Faithful(py) && Supported(v) && Supported(w)
    requires !(v.PyEnum? && w.PyEnum?) && !(v.PyDict? && w.PyDict?) && !(v.PyTuple? && w.PyTuple?)
    requires !(v.PyList? && w.PyList?) && !(v.PyData? && w.PyData?)
    ensures RecordOf(py, v) == RecordOf(py, w) <==> Same(v, w, false)
  {
    assert RecordOf(py, v).items[0] == RecordOf(py, w).items[0] ==> Tag(v) == Tag(w);
    hide SameEntries, SameElements, SameFields, EntryRecords;
    if Tag(v) == Tag(w) && Tag(v) != "none" {
      assert RecordOf(py, v).items[1] == RecordOf(py, w).items[1] <==> Same(v, w, false);
      assert |RecordOf(py, v).items| == 2 == |RecordOf(py, w).items|;
      PairsAgree(RecordOf(py, v), RecordOf(py, w));
    }
  }

  lemma PairsAgree(a: Record, b: Record)
    requires a.Tuple? && b.Tuple? && |a.items| == 2 == |b.items| && a.items[0] == b.items[0]
    ensures a == b <==> a.items[1] == b.items[1]
  {
    assert a.items == [a.items[0], a.items[1]] && b.items == [b.items[0], b.items[1]];
  }

  function Tag(v: Value): string {
    match v
    case PyNone => "none"
    case PyEnum(_, _) => "enum"
    case PyBool(_) => "bool"
    case PyInt(_, _) => "int"
    case PyFloat(_, _) => "float"
    case PyStr(_, _) => "str"
    case PyDict(_, _) => "dict"
    case PyTuple(_, _) => "tuple"
    case PyList(_, _) => "list"
    case PyData(_, _) => "dataclass"
    case Unsupported => "-"
  }

  lemma {:induction false} ElementsIffSame(py: Python, v: Value, w: Value)
    requires Faithful(py) && Supported(v) && Supported(w) && ((v.PyTuple? && w.PyTuple?) || (v.PyList? && w.PyList?))
    ensures RecordOf(py, v) == RecordOf(py, w) <==> Same(v, w, false)
    decreases v, 0
  {
    var a, b := ElementRecords(py, v), ElementRecords(py, w);
    if |a| == |b| {
      forall i | 0 <= i < |a| ensures a[i] == b[i] <==> Same(v.elements[i], w.elements[i], false) {
        RecordIffSame(py, v.elements[i], w.elements[i]);
      }
    }
    assert a == b <==> SameElements(v, w.elements, false);
    assert RecordOf(py, v).items[1] == Tuple(a) && RecordOf(py, w).items[1] == Tuple(b);
  }

  lemma {:induction false} FieldsIffSame(py: Python, v: Value, w: Value)
    requires Faithful(py) && Supported(v) && Supported(w) && v.PyData? && w.PyData?
    ensures RecordOf(py, v) == RecordOf(py, w) <==> Same(v, w, false)
    decreases v, 0
  {
    var a, b := FieldRecords(py, v), FieldRecords(py, w);
    if |a| == |b| {
      forall i | 0 <= i < |a| ensures a[i] == b[i] <==> v.fields[i].0 == w.fields[i].0 && Same(v.fields[i].1, w.fields[i].1, false) {
        RecordIffSame(py, v.fields[i].1, w.fields[i].1);
        assert a[i].items[0] == Text(v.fields[i].0) && b[i].items[0] == Text(w.fields[i].0);
        assert a[i].items[1] == RecordOf(py, v.fields[i].1) && b[i].items[1] == RecordOf(py, w.fields[i].1);
      }
    }
    assert a == b <==> SameFields(v, w.fields, false);
    var r, q := RecordOf(py, v), RecordOf(py, w);
    assert r.items[1] == Text(v.dataClass.moduleName) && r.items[2] == Text(v.dataClass.qualname) && r.items[3] == Tuple(a);
    assert q.items[1] == Text(w.dataClass.moduleName) && q.items[2] == Text(w.dataClass.qualname) && q.items[3] == Tuple(b);
  }

  lemma {:induction false} DictIffSame(py: Python, v: Value, w: Value)
    requires Faithful(py) && Supported(v) && Supported(w) && v.PyDict? && w.PyDict?
    ensures RecordOf(py, v) == RecordOf(py, w) <==> Same(v, w, false)
    decreases v, 0
  {
    var a, b := EntryRecords(py, v), EntryRecords(py, w);
    assert a == EntryList(py, v.entries) && b == EntryList(py, w.entries);
    ReprIsLinear(py, a);
    ReprIsLinear(py, b);
    SortIffMultiset(ByRepr(py), a, b);
    EntriesIffSame(py, v, v.entries, w.entries);
    assert RecordOf(py, v).items[1] == Tuple(Sort(ByRepr(py), a)) && RecordOf(py, w).items[1] == Tuple(Sort(ByRepr(py), b));
  }

  /** Equal multisets of entry records are a matching of the entries. */
  lemma {:induction false} EntriesIffSame(py: Python, v: Value, xs: seq<(Value, Value)>, ys: seq<(Value, Value)>)
    requires Faithful(py) && v.PyDict? && forall i :: 0 <= i < |xs| ==> xs[i] in v.entries
    requires forall i :: 0 <= i < |xs| ==> Supported(xs[i].0) && Supported(xs[i].1)
    requires forall i :: 0 <= i < |ys| ==> Supported(ys[i].0) && Supported(ys[i].1)
    ensures multiset(EntryList(py, xs)) == multiset(EntryList(py, ys)) <==> SameEntries(v, xs, ys, false)
    decreases v, 0, |xs|
  {
    var a, b := EntryList(py, xs), EntryList(py, ys);
    assert |multiset(a)| == |xs| && |multiset(b)| == |ys|;
    if xs != [] {
      forall k | 0 <= k < |ys|
        ensures b[k] == a[0] <==> Same(xs[0].0, ys[k].0, false) && Same(xs[0].1, ys[k].1, false)
      {
        assert xs[0] in v.entries;
        RecordIffSame(py, xs[0].0, ys[k].0);
        RecordIffSame(py, xs[0].1, ys[k].1);
        assert a[0].items[0] == RecordOf(py, xs[0].0) && a[0].items[1] == RecordOf(py, xs[0].1);
        assert b[k].items[0] == RecordOf(py, ys[k].0) && b[k].items[1] == RecordOf(py, ys[k].1);
      }
      forall k | 0 <= k < |ys| && b[k] == a[0]
        ensures multiset(a) == multiset(b) <==> SameEntries(v, xs[1..], ys[..k] + ys[k + 1..], false)
      {
        EntriesIffSame(py, v, xs[1..], ys[..k] + ys[k + 1..]);
        WithoutEntry(py, xs, ys, k);
      }
      if multiset(a) == multiset(b) {
        assert a[0] in multiset(b);
      }
    }
  }

  lemma WithoutEntry(py: Python, xs: seq<(Value, Value)>, ys: seq<(Value, Value)>, k: nat)
    requires xs != [] && k < |ys| && EntryList(py, xs)[0] == EntryList(py, ys)[k]
    ensures multiset(EntryList(py, xs)) == multiset(EntryList(py, ys))
       <==> multiset(EntryList(py, xs[1..])) == multiset(EntryList(py, ys[..k] + ys[k + 1..]))
  {
    var a, b := EntryList(py, xs), EntryList(py, ys);
    SameWithoutOne(a, b, k);
    assert a[1..] == EntryList(py, xs[1..]);
    assert b[..k] + b[k + 1..] == EntryList(py, ys[..k] + ys[k + 1..]);
  }

  // ---- Python's equality on records ----

  lemma {:induction false} PyEqualIsReflexive(a: Record)
    ensures PyEqual(a, a)
    decreases a
  {
    if a.Tuple? {
      forall i | 0 <= i < |a.items| ensures PyEqual(a.items[i], a.items[i]) { PyEqualIsReflexive(a.items[i]); }
    }
  }

  /** The tags keep True apart from 1: records Python calls equal are identical. */
  lemma {:induction false} PyEqualIsEqual(py: Python, v: Value, w: Value)
    requires Supported(v) && Supported(w) && PyEqual(RecordOf(py, v), RecordOf(py, w))
    ensures RecordOf(py, v) == RecordOf(py, w)
    decreases v, 0
  {
    var a, b := RecordOf(py, v), RecordOf(py, w);
    assert forall i :: 0 <= i < |a.items| ==> PyEqual(a.items[i], b.items[i]);
    assert PyEqual(a.items[0], b.items[0]);
    assert a.items[0] == Text(Tag(v)) && b.items[0] == Text(Tag(w));
    if |a.items| >= 2 { assert PyEqual(a.items[1], b.items[1]); }
    if v.PyEnum? {
      assert PyEqual(a.items[2], b.items[2]) && PyEqual(a.items[3], b.items[3]);
      PyEqualIsEqual(py, v.value, w.value);
    } else if v.PyData? {
      assert PyEqual(a.items[2], b.items[2]) && PyEqual(a.items[3], b.items[3]);
      PyEqualFields(py, v, w);
    } else if v.PyTuple? || v.PyList? {
      PyEqualElements(py, v, w);
    } else if v.PyDict? {
      PyEqualDicts(py, v, w);
    }
  }

  lemma {:induction false} PyEqualFields(py: Python, v: Value, w: Value)
    requires Supported(v) && Supported(w) && v.PyData? && w.PyData?
    requires PyEqual(Tuple(FieldRecords(py, v)), Tuple(FieldRecords(py, w)))
    ensures FieldRecords(py, v) == FieldRecords(py, w)
    decreases v, -1
  {
    var a, b := FieldRecords(py, v), FieldRecords(py, w);
    forall i | 0 <= i < |a| ensures a[i] == b[i] {
      assert PyEqual(a[i], b[i]) && PyEqual(a[i].items[0], b[i].items[0]) && PyEqual(a[i].items[1], b[i].items[1]);
      PyEqualIsEqual(py, v.fields[i].1, w.fields[i].1);
    }
  }

  lemma {:induction false} PyEqualElements(py: Python, v: Value, w: Value)
    requires Supported(v) && Supported(w) && ((v.PyTuple? && w.PyTuple?) || (v.PyList? && w.PyList?))
    requires PyEqual(Tuple(ElementRecords(py, v)), Tuple(ElementRecords(py, w)))
    ensures ElementRecords(py, v) == ElementRecords(py, w)
    decreases v, -1
  {
    var a, b := ElementRecords(py, v), ElementRecords(py, w);
    forall i | 0 <= i < |a| ensures a[i] == b[i] {
      assert PyEqual(a[i], b[i]);
      PyEqualIsEqual(py, v.elements[i], w.elements[i]);
    }
  }

  lemma {:induction false} PyEqualDicts(py: Python, v: Value, w: Value)
    requires Supported(v) && Supported(w) && v.PyDict? && w.PyDict? && PyEqual(RecordOf(py, v), RecordOf(py, w))
    ensures RecordOf(py, v) == RecordOf(py, w)
    decreases v, -1
  {
    var a, b := Sort(ByRepr(py), EntryRecords(py, v)), Sort(ByRepr(py), EntryRecords(py, w));
    assert RecordOf(py, v).items[1] == Tuple(a) && RecordOf(py, w).items[1] == Tuple(b);
    assert PyEqual(Tuple(a), Tuple(b));
    forall i | 0 <= i < |a| ensures a[i] == b[i] {
      var k := SortedEntry(py, v, i);
      var l := SortedEntry(py, w, i);
      assert PyEqual(a[i], b[i]);
      assert PyEqual(a[i].items[0], b[i].items[0]) && PyEqual(a[i].items[1], b[i].items[1]);
      PyEqualIsEqual(py, v.entries[k].0, w.entries[l].0);
      PyEqualIsEqual(py, v.entries[k].1, w.entries[l].1);
    }
    assert a == b;
  }

  /** Every sorted record is the record of an entry. */
  lemma SortedEntry(py: Python, v: Value, i: nat) returns (k: nat)
    requires v.PyDict? && i < |Sort(ByRepr(py), EntryRecords(py, v))|
    ensures k < |v.entries| && Sort(ByRepr(py), EntryRecords(py, v))[i] == EntryRecord(py, v.entries[k])
  {
    var records := EntryRecords(py, v);
    SortPermutes(ByRepr(py), records);
    assert Sort(ByRepr(py), records)[i] in multiset(records);
    k :| 0 <= k < |records| && records[k] == Sort(ByRepr(py), records)[i];
  }

  /** What `resolve` asks: two values pass its comparison exactly if they are structurally the same. */
  lemma RecordComparisonIsExact(py: Python, v: Value, w: Value)
    requires Faithful(py) && SemanticRecord(py, v).Some? && SemanticRecord(py, w).Some?
    ensures PyEqual(SemanticRecord(py, v).value, SemanticRecord(py, w).value) <==> Same(v, w, false)
  {
    RecordIffSame(py, v, w);
    if Same(v, w, false) {
      PyEqualIsReflexive(RecordOf(py, v));
    } else if PyEqual(RecordOf(py, v), RecordOf(py, w)) {
      PyEqualIsEqual(py, v, w);
    }
  }

  // ---- What a record tells, and what it does not ----

  /**
   * Where no proper subclass of a builtin type occurs, equal records mean equal values, types included;
   * and equal values always have equal records.
   */
  lemma PlainRecordsAreExact(py: Python, v: Value, w: Value)
    requires Faithful(py) && Supported(v) && Supported(w)
    ensures Same(v, w, true) ==> RecordOf(py, v) == RecordOf(py, w)
    ensures Plain(v) && Plain(w) ==> (RecordOf(py, v) == RecordOf(py, w) <==> Same(v, w, true))
  {
    RecordIffSame(py, v, w);
    TypedRefinesUntyped(v, w);
  }

  /** A named tuple and the tuple of its elements are told apart by their types, but not by their records. */
  lemma NamedTupleSharesItsRecord(py: Python) returns (v: Value, w: Value)
    ensures Supported(v) && Supported(w) && RecordOf(py, v) == RecordOf(py, w)
    ensures v.PyTuple? && w.PyTuple? && v.cls != w.cls && !Same(v, w, true)
  {
    var one := PyInt(1, Builtin("int"));
    v, w := PyTuple([one], Builtin("tuple")), PyTuple([one], Class("app", "Point"));
    assert ElementRecords(py, v) == ElementRecords(py, w);
  }

  /** Two NaNs with different payloads are different floats with one record. */
  lemma NansShareTheirRecord(py: Python) returns (v: Value, w: Value)
    requires Faithful(py)
    ensures Supported(v) && Supported(w) && RecordOf(py, v) == RecordOf(py, w)
    ensures v.PyFloat? && w.PyFloat? && v.f != w.f && v.cls == w.cls
  {
    v, w := PyFloat(NaN(1), Builtin("float")), PyFloat(NaN(2), Builtin("float"));
    assert SameFloat(NaN(1), NaN(2));
  }

  // ---- The registry ----

  /** A wrapper object: who it is, the address `id` reports, and the core input it points to. */
  datatype Wrapper = Wrapper(identity: int, address: int, input: int)

  /** The weak reference, the input that was frozen with it, and that input's record. */
  datatype Bound = Bound(wrapper: int, input: int, record: Record)

  class Registry {
    const py: Python
    var bindings: map<int, Bound>
    ghost var alive: map<Wrapper, Value>  // the wrappers still referenced, with what they were built from

    ghost predicate Valid()
      reads this
    {
      && Faithful(py)
      && (forall w :: w in alive ==>
            && w.address in bindings && Supported(alive[w])
            && bindings[w.address] == Bound(w.identity, w.input, RecordOf(py, alive[w])))
      && (forall a :: a in bindings ==> exists w :: w in alive && w.address == a)
    }

    constructor (py: Python)
      requires Faithful(py)
      ensures Valid() && alive == map[] && this.py == py
    {
      this.py := py;
      bindings, alive := map[], map[];
    }

    /** `build`, up to the frozen copies: no object still alive has the new wrapper's address. */
    method Build(w: Wrapper, content: Value) returns (ok: bool)
      requires Valid()
      requires forall o :: o in alive ==> o.address != w.address && o.identity != w.identity
      modifies this
      ensures Valid()
      ensures ok <==> Supported(content)
      ensures alive == if ok then old(alive)[w := content] else old(alive)
    {
      if !Supported(content) { return false; }
      var record := SemanticRecord(py, content).value;
      bindings := bindings[w.address := Bound(w.identity, w.input, record)];
      alive := alive[w := content];
      forall a | a in bindings ensures exists o :: o in alive && o.address == a {
        if a == w.address {
          assert w in alive;
        } else {
          var o :| o in old(alive) && o.address == a;
          assert o in alive;
        }
      }
      return true;
    }

    /** The weak reference's callback. */
    method Cleanup(w: Wrapper)
      requires Valid() && w in alive
      requires forall o :: o in alive && o != w ==> o.address != w.address
      modifies this
      ensures Valid() && alive == old(alive) - {w}
    {
      bindings := bindings - {w.address};
      alive := alive - {w};
      forall a | a in bindings ensures exists o :: o in alive && o.address == a {
        var o :| o in old(alive) && o.address == a;
        assert o in alive;
      }
    }

    /**
     * `resolve` succeeds only for the very wrapper that was built, still pointing to the very input it
     * was built with, whose content is still what it was, up to subclasses of builtin types; `rest` are the
     * comparisons of single fields, which can only refuse more.
     */
    method Resolve(w: Wrapper, ghost frozen: Wrapper, now: Value, rest: bool) returns (ok: bool)
      requires Valid()
      requires w.identity == frozen.identity && w.address == frozen.address
      requires forall o :: o in alive && o.identity == w.identity ==> o == frozen
      ensures ok <==> frozen in alive && w.input == frozen.input && Supported(now) && Same(now, alive[frozen], false) && rest
      ensures ok && Plain(now) && Plain(alive[frozen]) ==> Same(now, alive[frozen], true)
    {
      if w.address !in bindings || bindings[w.address].wrapper != w.identity {
        return false;
      }
      var binding := bindings[w.address];
      ghost var o :| o in alive && o.address == w.address;
      assert o == frozen;
      if w.input != binding.input { return false; }
      var record := SemanticRecord(py, now);
      if record.None? { return false; }
      RecordComparisonIsExact(py, now, alive[frozen]);
      TypedRefinesUntyped(now, alive[frozen]);
      return PyEqual(record.value, binding.record) && rest;
    }
  }
}
