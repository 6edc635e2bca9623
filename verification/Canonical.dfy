/** The canonical encoding behind every digest and signature: a Python value is normalised,
    written as JSON with sorted keys, and encoded in UTF-8. */
module Canonical {
  import opened Wrappers
  import opened Dicts
  import J = Json
  import Utf8

  /** The Python values the protocol encodes. A string enumeration is its wire value and a
      timestamp a whole number of microseconds. */
  datatype PyValue =
    | PyNone
    | PyBool(b: bool)
    | PyInt(n: int)
    | PyStr(s: string)
    | PyEnum(name: string)
    | PyTime(micros: int)
    | PyList(items: seq<PyValue>)
    | PyDict(entries: Entries<PyValue>)

  /** A Python dictionary never holds a key twice, at any depth. */
  predicate WellFormed(v: PyValue)
    decreases v
  {
    match v
    case PyList(items) => forall i :: 0 <= i < |items| ==> WellFormed(items[i])
    case PyDict(es) => Distinct(es) && forall i :: 0 <= i < |es| ==> WellFormed(es[i].val)
    case _ => true
  }

  type PyData = v: PyValue | WellFormed(v) witness PyNone

  /** The text of a timestamp, left abstract. */
  type Stamp = int -> string

  ghost predicate InjectiveStamp(stamp: Stamp) {
    forall a, b :: stamp(a) == stamp(b) ==> a == b
  }

  /** `_normalize`. It sorts by key only: `SourceOrder` shows that sorting before or after
      normalising the values is the same. */
  function Normalize(stamp: Stamp, v: PyValue): J.Json
    decreases v
  {
    match v
    case PyNone => J.Null
    case PyBool(b) => J.Bool(b)
    case PyInt(n) => J.Num(n)
    case PyStr(s) => J.Str(s)
    case PyEnum(name) => J.Str(name)
    case PyTime(t) => J.Str(stamp(t))
    case PyList(items) => J.Arr(seq(|items|, i requires 0 <= i < |items| => Normalize(stamp, items[i])))
    case PyDict(es) =>
      J.Obj(Sort(seq(|es|, i requires 0 <= i < |es| => Entry(es[i].key, Normalize(stamp, es[i].val)))))
  }

  function NormalizeEntries(stamp: Stamp, es: Entries<PyValue>): Entries<J.Json> {
    seq(|es|, i requires 0 <= i < |es| => Entry(es[i].key, Normalize(stamp, es[i].val)))
  }

  /** The second sort, made by `json.dumps(..., sort_keys=True)`. */
  function SortKeys(j: J.Json): J.Json
    decreases j
  {
    match j
    case Arr(items) => J.Arr(seq(|items|, i requires 0 <= i < |items| => SortKeys(items[i])))
    case Obj(ms) => J.Obj(Sort(seq(|ms|, i requires 0 <= i < |ms| => Entry(ms[i].key, SortKeys(ms[i].val)))))
    case _ => j
  }

  function CanonicalText(stamp: Stamp, v: PyValue): string {
    J.Print(SortKeys(Normalize(stamp, v)))
  }

  function CanonicalBytes(stamp: Stamp, v: PyValue): seq<byte> {
    Utf8.Encode(CanonicalText(stamp, v))
  }

  // ---- normal forms are stable ----

  /** Sorted at every depth. */
  predicate SortedThroughout(j: J.Json)
    decreases j
  {
    match j
    case Arr(items) => forall i :: 0 <= i < |items| ==> SortedThroughout(items[i])
    case Obj(ms) => Ascending(ms) && forall i :: 0 <= i < |ms| ==> SortedThroughout(ms[i].val)
    case _ => true
  }

  lemma {:induction false} NormalizeSorts(stamp: Stamp, v: PyValue)
    requires WellFormed(v)
    ensures SortedThroughout(Normalize(stamp, v))
    decreases v
  {
    match v
    case PyList(items) =>
      forall i | 0 <= i < |items| ensures SortedThroughout(Normalize(stamp, items[i])) {
        NormalizeSorts(stamp, items[i]);
      }
    case PyDict(es) =>
      var ns := NormalizeEntries(stamp, es);
      SortSorts(ns);
      forall e | e in Sort(ns) ensures SortedThroughout(e.val) {
        SortMembers(ns, e);
        var i :| 0 <= i < |ns| && ns[i] == e;
        NormalizeSorts(stamp, es[i].val);
      }
      assert Normalize(stamp, v) == J.Obj(Sort(ns));
    case _ =>
  }

  lemma {:induction false} SortKeysFixes(j: J.Json)
    requires SortedThroughout(j)
    ensures SortKeys(j) == j
    decreases j
  {
    match j
    case Arr(items) =>
      forall i | 0 <= i < |items| ensures SortKeys(items[i]) == items[i] { SortKeysFixes(items[i]); }
      assert SortKeys(j).items == items;
    case Obj(ms) =>
      var ss := seq(|ms|, i requires 0 <= i < |ms| => Entry(ms[i].key, SortKeys(ms[i].val)));
      forall i | 0 <= i < |ms| ensures ss[i] == ms[i] { SortKeysFixes(ms[i].val); }
      assert ss == ms;
      AscendingIsDistinct(ms);
      SortSorts(ms);
      AscendingUnique(Sort(ms), ms);
    case _ =>
  }

  /** Normalising is idempotent: the sort that `json.dumps` repeats finds nothing to move. */
  lemma NormalFormIsStable(stamp: Stamp, v: PyValue)
    requires WellFormed(v)
    ensures SortKeys(Normalize(stamp, v)) == Normalize(stamp, v)
  {
    NormalizeSorts(stamp, v);
    SortKeysFixes(Normalize(stamp, v));
  }

  // ---- what two values with the same bytes have in common ----

  /** The string a leaf is written as, for the three kinds of leaf written as strings. */
  function Token(stamp: Stamp, v: PyValue): Option<string> {
    match v
    case PyStr(s) => Some(s)
    case PyEnum(name) => Some(name)
    case PyTime(t) => Some(stamp(t))
    case _ => None
  }

  /** The same data: equal leaves, equal lists, and equal mappings whatever the insertion order. */
  ghost predicate SameData(stamp: Stamp, v: PyValue, w: PyValue)
    decreases v
  {
    match v
    case PyList(items) =>
      w.PyList? && |items| == |w.items| &&
      forall i :: 0 <= i < |items| ==> SameData(stamp, items[i], w.items[i])
    case PyDict(es) =>
      w.PyDict? && Keys(es) == Keys(w.entries) &&
      forall i :: 0 <= i < |es| ==>
        es[i].key in AsMap(w.entries) && SameData(stamp, es[i].val, AsMap(w.entries)[es[i].key])
    case _ => if Token(stamp, v).Some? then Token(stamp, v) == Token(stamp, w) else v == w
  }

  lemma {:induction false} NormalMap(stamp: Stamp, es: Entries<PyValue>)
    requires Distinct(es)
    ensures Distinct(NormalizeEntries(stamp, es)) && Keys(NormalizeEntries(stamp, es)) == Keys(es)
    ensures forall k :: k in Keys(es) ==>
      k in AsMap(NormalizeEntries(stamp, es)) && AsMap(NormalizeEntries(stamp, es))[k] == Normalize(stamp, AsMap(es)[k])
  {
    var ns := NormalizeEntries(stamp, es);
    if es != [] {
      DistinctTail(es);
      NormalMap(stamp, es[1..]);
      assert ns[1..] == NormalizeEntries(stamp, es[1..]);
    }
  }

  lemma SameMapping(es: Entries<J.Json>, fs: Entries<J.Json>)
    requires Distinct(es) && Distinct(fs)
    ensures Sort(es) == Sort(fs) <==> AsMap(es) == AsMap(fs)
  {
    SortSorts(es);
    SortSorts(fs);
    if AsMap(es) == AsMap(fs) {
      AscendingUnique(Sort(es), Sort(fs));
    }
  }

  lemma ValueOf(es: Entries<PyValue>, k: string) returns (i: nat)
    requires Distinct(es) && k in AsMap(es)
    ensures i < |es| && es[i].key == k && AsMap(es)[k] == es[i].val
  {
    i := KeyIndex(es, k);
    AsMapAt(es, i);
  }

  lemma {:induction false} NormalFormMeaning(stamp: Stamp, v: PyValue, w: PyValue)
    requires WellFormed(v) && WellFormed(w)
    ensures Normalize(stamp, v) == Normalize(stamp, w) <==> SameData(stamp, v, w)
    decreases v, 1
  {
    match v
    case PyList(items) =>
      if w.PyList? { NormalListMeaning(stamp, items, w.items); }
    case PyDict(es) =>
      if w.PyDict? { NormalDictMeaning(stamp, es, w.entries); }
    case _ =>
  }

  lemma {:induction false} NormalListMeaning(stamp: Stamp, xs: seq<PyValue>, ys: seq<PyValue>)
    requires WellFormed(PyList(xs)) && WellFormed(PyList(ys))
    ensures Normalize(stamp, PyList(xs)) == Normalize(stamp, PyList(ys)) <==> SameData(stamp, PyList(xs), PyList(ys))
    decreases xs, 0
  {
    var a, b := Normalize(stamp, PyList(xs)).items, Normalize(stamp, PyList(ys)).items;
    assert |a| == |xs| && |b| == |ys|;
    if |xs| == |ys| {
      forall i | 0 <= i < |xs| ensures a[i] == b[i] <==> SameData(stamp, xs[i], ys[i]) {
        NormalFormMeaning(stamp, xs[i], ys[i]);
      }
      assert a == b <==> forall i :: 0 <= i < |xs| ==> a[i] == b[i];
    }
  }

  lemma {:induction false} FieldMeaning(stamp: Stamp, es: Entries<PyValue>, fs: Entries<PyValue>, i: nat)
    requires WellFormed(PyDict(es)) && WellFormed(PyDict(fs)) && Keys(es) == Keys(fs) && i < |es|
    ensures es[i].key in AsMap(fs) && AsMap(es)[es[i].key] == es[i].val
    ensures Normalize(stamp, es[i].val) == Normalize(stamp, AsMap(fs)[es[i].key])
            <==> SameData(stamp, es[i].val, AsMap(fs)[es[i].key])
    decreases es, 0
  {
    AsMapAt(es, i);
    var j := ValueOf(fs, es[i].key);
    NormalFormMeaning(stamp, es[i].val, fs[j].val);
  }

  /** Two mappings agree when they agree at every key of a listing. */
  lemma AgreeOnKeys(es: Entries<PyValue>, m: map<string, J.Json>, n: map<string, J.Json>)
    requires m.Keys == n.Keys == Keys(es)
    requires forall i :: 0 <= i < |es| ==> es[i].key in m && es[i].key in n && m[es[i].key] == n[es[i].key]
    ensures m == n
  {
    forall k | k in m ensures m[k] == n[k] {
      var i := KeyIndex(es, k);
    }
  }

  lemma {:induction false} NormalDictMeaning(stamp: Stamp, es: Entries<PyValue>, fs: Entries<PyValue>)
    requires WellFormed(PyDict(es)) && WellFormed(PyDict(fs))
    ensures Normalize(stamp, PyDict(es)) == Normalize(stamp, PyDict(fs)) <==> SameData(stamp, PyDict(es), PyDict(fs))
    decreases es, 1
  {
    NormalMap(stamp, es);
    NormalMap(stamp, fs);
    var m, n := AsMap(NormalizeEntries(stamp, es)), AsMap(NormalizeEntries(stamp, fs));
    SameMapping(NormalizeEntries(stamp, es), NormalizeEntries(stamp, fs));
    assert Normalize(stamp, PyDict(es)) == Normalize(stamp, PyDict(fs)) <==> m == n by {
      assert Normalize(stamp, PyDict(es)).members == Sort(NormalizeEntries(stamp, es));
      assert Normalize(stamp, PyDict(fs)).members == Sort(NormalizeEntries(stamp, fs));
    }
    if Keys(es) == Keys(fs) {
      forall i | 0 <= i < |es|
        ensures es[i].key in m && es[i].key in n && es[i].key in AsMap(fs)
        ensures m[es[i].key] == n[es[i].key] <==> SameData(stamp, es[i].val, AsMap(fs)[es[i].key])
      {
        FieldMeaning(stamp, es, fs, i);
      }
      if forall i :: 0 <= i < |es| ==> m[es[i].key] == n[es[i].key] {
        AgreeOnKeys(es, m, n);
      }
    }
  }

  /** The canonical bytes say exactly as much as the data: they are equal if and only if the two
      values hold the same data, whatever order their dictionaries were built in. */
  lemma CanonicalMeaning(stamp: Stamp, v: PyData, w: PyData)
    ensures CanonicalBytes(stamp, v) == CanonicalBytes(stamp, w) <==> SameData(stamp, v, w)
  {
    NormalFormIsStable(stamp, v);
    NormalFormIsStable(stamp, w);
    NormalFormMeaning(stamp, v, w);
    if CanonicalBytes(stamp, v) == CanonicalBytes(stamp, w) {
      Utf8.Injective(CanonicalText(stamp, v), CanonicalText(stamp, w));
      J.PrintInjective(Normalize(stamp, v), Normalize(stamp, w));
    }
  }

  /** Two dictionaries holding the same mapping have the same bytes, whatever their insertion orders. */
  lemma OrderIndependence(stamp: Stamp, es: Entries<PyValue>, fs: Entries<PyValue>)
    requires WellFormed(PyDict(es)) && WellFormed(PyDict(fs)) && AsMap(es) == AsMap(fs)
    ensures CanonicalBytes(stamp, PyDict(es)) == CanonicalBytes(stamp, PyDict(fs))
  {
    assert Keys(es) == AsMap(es).Keys == AsMap(fs).Keys == Keys(fs);
    forall i | 0 <= i < |es|
      ensures es[i].key in AsMap(fs) && SameData(stamp, es[i].val, AsMap(fs)[es[i].key])
    {
      AsMapAt(es, i);
      Reflexive(stamp, es[i].val);
    }
    CanonicalMeaning(stamp, PyDict(es), PyDict(fs));
  }

  lemma Reflexive(stamp: Stamp, v: PyValue)
    requires WellFormed(v)
    ensures SameData(stamp, v, v)
  {
    NormalFormMeaning(stamp, v, v);
  }

  /** The bytes are read back to the normal form they were written from. */
  lemma CanonicalRoundTrip(stamp: Stamp, v: PyValue)
    requires WellFormed(v)
    ensures Utf8.Decode(CanonicalBytes(stamp, v)).Some?
    ensures J.Parse(Utf8.Decode(CanonicalBytes(stamp, v)).value) == Some(Normalize(stamp, v))
  {
    NormalFormIsStable(stamp, v);
    Utf8.RoundTrip(CanonicalText(stamp, v));
    J.RoundTrip(Normalize(stamp, v));
  }

  /** `_normalize` as it is written sorts the items first. Any listing of the same dictionary in
      ascending key order, however it was sorted, normalises to the same members. */
  lemma SourceOrder(stamp: Stamp, es: Entries<PyValue>, sorted: Entries<PyValue>)
    requires Distinct(es) && Ascending(sorted) && AsMap(sorted) == AsMap(es)
    ensures NormalizeEntries(stamp, sorted) == Sort(NormalizeEntries(stamp, es))
  {
    var ms, ns := NormalizeEntries(stamp, sorted), NormalizeEntries(stamp, es);
    AscendingIsDistinct(sorted);
    NormalMap(stamp, sorted);
    NormalMap(stamp, es);
    assert Keys(sorted) == AsMap(sorted).Keys == AsMap(es).Keys == Keys(es);
    assert AsMap(ms) == AsMap(ns);
    NormalizeKeepsAscending(stamp, sorted);
    SortSorts(ns);
    AscendingUnique(ms, Sort(ns));
  }

  lemma {:induction false} NormalizeKeepsAscending(stamp: Stamp, es: Entries<PyValue>)
    requires Ascending(es)
    ensures Ascending(NormalizeEntries(stamp, es)) && Keys(NormalizeEntries(stamp, es)) == Keys(es)
  {
    if es != [] {
      NormalizeKeepsAscending(stamp, es[1..]);
      assert NormalizeEntries(stamp, es)[1..] == NormalizeEntries(stamp, es[1..]);
    }
  }
}
