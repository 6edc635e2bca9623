/** Python dictionaries with string keys: a mapping plus an insertion order, and the sort by key
    that the canonical form applies to them. */
module Dicts {
  datatype Entry<T> = Entry(key: string, val: T)

  type Entries<T> = seq<Entry<T>>

  /** What makes an entry list a dictionary: no key twice. */
  predicate Distinct<T>(es: Entries<T>) {
    forall i, j :: 0 <= i < j < |es| ==> es[i].key != es[j].key
  }

  function Keys<T>(es: Entries<T>): set<string> {
    if es == [] then {} else {es[0].key} + Keys(es[1..])
  }

  /** The mapping alone, forgetting the order. */
  function AsMap<T>(es: Entries<T>): (m: map<string, T>)
    ensures m.Keys == Keys(es)
  {
    if es == [] then map[] else AsMap(es[1..])[es[0].key := es[0].val]
  }

  lemma {:induction false} KeyIndex<T>(es: Entries<T>, k: string) returns (i: nat)
    requires k in Keys(es)
    ensures i < |es| && es[i].key == k
  {
    if es[0].key == k {
      i := 0;
    } else {
      i := KeyIndex(es[1..], k);
      i := i + 1;
    }
  }

  lemma DistinctTail<T>(es: Entries<T>)
    requires Distinct(es) && es != []
    ensures Distinct(es[1..]) && es[0].key !in Keys(es[1..])
  {
    if es[0].key in Keys(es[1..]) {
      var i := KeyIndex(es[1..], es[0].key);
      assert false;
    }
  }

  lemma {:induction false} AsMapAt<T>(es: Entries<T>, i: nat)
    requires Distinct(es) && i < |es|
    ensures es[i].key in AsMap(es) && AsMap(es)[es[i].key] == es[i].val
  {
    if i > 0 {
      assert es[1..][i - 1] == es[i];
      AsMapAt(es[1..], i - 1);
    }
  }

  // ---- string order: lexicographic by code point ----

  predicate Less(a: string, b: string) {
    b != [] && (a == [] || a[0] < b[0] || (a[0] == b[0] && Less(a[1..], b[1..])))
  }

  lemma {:induction false} LessTotal(a: string, b: string)
    ensures Less(a, b) || a == b || Less(b, a)
  {
    if a != [] && b != [] && a[0] == b[0] {
      LessTotal(a[1..], b[1..]);
      assert [a[0]] + a[1..] == a && [b[0]] + b[1..] == b;
    }
  }

  lemma {:induction false} LessStrict(a: string, b: string)
    requires Less(a, b)
    ensures a != b && !Less(b, a)
  {
    if a != [] && a[0] == b[0] {
      LessStrict(a[1..], b[1..]);
    }
  }

  lemma {:induction false} LessTransitive(a: string, b: string, c: string)
    requires Less(a, b) && Less(b, c)
    ensures Less(a, c)
  {
    if a != [] && a[0] == b[0] == c[0] {
      LessTransitive(a[1..], b[1..], c[1..]);
    }
  }

  predicate Below(k: string, ks: set<string>) {
    forall l :: l in ks ==> Less(k, l)
  }

  /** Keys strictly ascending. */
  predicate Ascending<T>(es: Entries<T>) {
    es == [] || (Below(es[0].key, Keys(es[1..])) && Ascending(es[1..]))
  }

  // ---- sorting by key ----

  function Insert<T>(e: Entry<T>, es: Entries<T>): Entries<T> {
    if es == [] || Less(e.key, es[0].key) then [e] + es else [es[0]] + Insert(e, es[1..])
  }

  function Sort<T>(es: Entries<T>): Entries<T> {
    if es == [] then [] else Insert(es[0], Sort(es[1..]))
  }

  lemma ConsAscends<T>(e: Entry<T>, es: Entries<T>)
    requires Ascending(es) && Below(e.key, Keys(es))
    ensures Ascending([e] + es) && AsMap([e] + es) == AsMap(es)[e.key := e.val]
  {
    assert ([e] + es)[1..] == es;
  }

  lemma BelowFirst<T>(k: string, es: Entries<T>)
    requires es != [] && Ascending(es) && Less(k, es[0].key)
    ensures Below(k, Keys(es))
  {
    forall l | l in Keys(es) ensures Less(k, l) {
      if l != es[0].key { LessTransitive(k, es[0].key, l); }
    }
  }

  lemma {:induction false} InsertSorts<T>(e: Entry<T>, es: Entries<T>)
    requires Ascending(es) && e.key !in Keys(es)
    ensures Ascending(Insert(e, es)) && AsMap(Insert(e, es)) == AsMap(es)[e.key := e.val]
    ensures |Insert(e, es)| == |es| + 1
  {
    if es == [] {
      ConsAscends(e, es);
    } else if Less(e.key, es[0].key) {
      BelowFirst(e.key, es);
      ConsAscends(e, es);
    } else {
      LessTotal(e.key, es[0].key);
      InsertSorts(e, es[1..]);
      assert Keys(Insert(e, es[1..])) == AsMap(Insert(e, es[1..])).Keys == Keys(es[1..]) + {e.key};
      ConsAscends(es[0], Insert(e, es[1..]));
    }
  }

  /** Sorting a dictionary gives ascending keys and the same mapping. */
  lemma {:induction false} SortSorts<T>(es: Entries<T>)
    requires Distinct(es)
    ensures Ascending(Sort(es)) && AsMap(Sort(es)) == AsMap(es) && |Sort(es)| == |es|
  {
    if es != [] {
      DistinctTail(es);
      SortSorts(es[1..]);
      assert Keys(Sort(es[1..])) == AsMap(Sort(es[1..])).Keys == Keys(es[1..]);
      InsertSorts(es[0], Sort(es[1..]));
    }
  }

  lemma AsMapOfTail<T>(es: Entries<T>)
    requires es != [] && Ascending(es)
    ensures AsMap(es[1..]) == AsMap(es) - {es[0].key}
  {
    if es[0].key in Keys(es[1..]) {
      LessStrict(es[0].key, es[0].key);
    }
  }

  lemma SameFirstKey<T>(es: Entries<T>, fs: Entries<T>)
    requires es != [] && fs != [] && Ascending(es) && Ascending(fs) && Keys(es) == Keys(fs)
    ensures es[0].key == fs[0].key
  {
    assert es[0].key in Keys(fs) && fs[0].key in Keys(es);
    if es[0].key != fs[0].key {
      LessStrict(es[0].key, fs[0].key);
    }
  }

  /** The ascending listing of a mapping is unique, so the result of sorting depends neither on
      the algorithm nor on any comparison of values. */
  lemma {:induction false} AscendingUnique<T>(es: Entries<T>, fs: Entries<T>)
    requires Ascending(es) && Ascending(fs) && AsMap(es) == AsMap(fs)
    ensures es == fs
  {
    assert Keys(es) == AsMap(es).Keys == AsMap(fs).Keys == Keys(fs);
    assert es == [] <==> Keys(es) == {};
    assert fs == [] <==> Keys(fs) == {};
    if es != [] {
      SameFirstKey(es, fs);
      assert AsMap(es)[es[0].key] == es[0].val && AsMap(fs)[fs[0].key] == fs[0].val;
      AsMapOfTail(es);
      AsMapOfTail(fs);
      AscendingUnique(es[1..], fs[1..]);
      assert es == [es[0]] + es[1..] && fs == [fs[0]] + fs[1..];
    }
  }

  lemma {:induction false} AscendingIsDistinct<T>(es: Entries<T>)
    requires Ascending(es)
    ensures Distinct(es)
  {
    if es != [] {
      AscendingIsDistinct(es[1..]);
      forall i | 0 < i < |es| ensures es[i].key != es[0].key {
        assert es[i] == es[1..][i - 1];
        KeyAt(es[1..], i - 1);
        LessStrict(es[0].key, es[i].key);
      }
      forall i, j | 0 <= i < j < |es| ensures es[i].key != es[j].key {
        if i > 0 { assert es[i] == es[1..][i - 1] && es[j] == es[1..][j - 1]; }
      }
    }
  }

  lemma {:induction false} KeyAt<T>(es: Entries<T>, i: nat)
    requires i < |es|
    ensures es[i].key in Keys(es)
  {
    if i > 0 {
      assert es[i] == es[1..][i - 1];
      KeyAt(es[1..], i - 1);
    }
  }

  lemma {:induction false} InsertMembers<T>(e: Entry<T>, es: Entries<T>, f: Entry<T>)
    ensures f in Insert(e, es) <==> f == e || f in es
  {
    if es != [] && !Less(e.key, es[0].key) {
      InsertMembers(e, es[1..], f);
      assert es == [es[0]] + es[1..];
    }
  }

  lemma {:induction false} SortMembers<T>(es: Entries<T>, f: Entry<T>)
    ensures f in Sort(es) <==> f in es
  {
    if es != [] {
      SortMembers(es[1..], f);
      InsertMembers(es[0], Sort(es[1..]), f);
      assert es == [es[0]] + es[1..];
    }
  }
}
