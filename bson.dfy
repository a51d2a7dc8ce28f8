/** The part of org.bson.Document the queue relies on: an insertion-ordered map from
    field names to values, where `append` is a put (a name already present keeps its
    position and gets the new value), and `equals` compares the entry sets. */
module Bson {
  import opened Results

  type ObjectId = nat

  /** Field values. `Int` is a java.lang.Integer and `Long` a java.lang.Long: equal numbers
      of the two classes are different values to Object.equals. `LteDate(t)` stands for
      the operator document {$lte: Date(t)}. */
  datatype Value =
    | Null
    | Bool(b: bool)
    | Int(i: int)
    | Long(l: int)
    | Str(s: string)
    | Date(ms: int)
    | Oid(id: ObjectId)
    | LteDate(bound: int)

  type Entry = (string, Value)
  type Document = seq<Entry>

  function Keys(d: Document): (ks: seq<string>)
    ensures |ks| == |d|
    ensures forall i :: 0 <= i < |d| ==> ks[i] == d[i].0
  {
    if d == [] then [] else [d[0].0] + Keys(d[1..])
  }

  /** No two entries share a name: every Document satisfies this. */
  predicate Wf(d: Document) {
    forall i, j :: 0 <= i < j < |d| ==> d[i].0 != d[j].0
  }

  /** Document.get: the value stored under k; None where Java returns null for a missing key. */
  function Get(d: Document, k: string): Option<Value>
  {
    if d == [] then None
    else if d[0].0 == k then Some(d[0].1)
    else Get(d[1..], k)
  }

  /** A name is absent exactly when no entry carries it. */
  lemma {:induction false} GetNone(d: Document, k: string)
    ensures Get(d, k).None? <==> k !in Keys(d)
  {
    if d != [] {
      GetNone(d[1..], k);
      assert Keys(d) == [d[0].0] + Keys(d[1..]);
    }
  }

  /** What Get finds is an entry of the document. */
  lemma {:induction false} GetFound(d: Document, k: string)
    requires Get(d, k).Some?
    ensures (k, Get(d, k).value) in d
  {
    if d[0].0 != k {
      GetFound(d[1..], k);
    }
  }

  lemma {:induction false} GetAt(d: Document, i: nat)
    requires Wf(d) && i < |d|
    ensures Get(d, d[i].0) == Some(d[i].1)
  {
    if i > 0 {
      assert d[0].0 != d[i].0;
      GetAt(d[1..], i - 1);
    }
  }

  /** Document.append / put: a new name goes at the end, an existing one keeps its place. */
  function Put(d: Document, k: string, v: Value): (r: Document)
    ensures Get(r, k) == Some(v)
    ensures forall k' :: k' != k ==> Get(r, k') == Get(d, k')
    ensures Get(d, k).None? ==> r == d + [(k, v)]
    ensures Get(d, k).Some? ==> Keys(r) == Keys(d)
  {
    if d == [] then [(k, v)]
    else if d[0].0 == k then
      var r := [(k, v)] + d[1..];
      assert Keys(r) == Keys(d);
      r
    else
      var rest := Put(d[1..], k, v);
      var r := [d[0]] + rest;
      assert Get(d, k).None? ==> r == d + [(k, v)] by {
        if Get(d, k).None? {
          assert d == [d[0]] + d[1..];
        }
      }
      assert Get(d, k).Some? ==> Keys(r) == Keys(d) by {
        if Get(d, k).Some? {
          assert Keys(r) == [d[0].0] + Keys(rest);
          assert Keys(d) == [d[0].0] + Keys(d[1..]);
        }
      }
      r
  }

  /** Documents whose names agree position by position are alike in being well formed. */
  lemma SameKeysWf(a: Document, b: Document)
    requires Keys(a) == Keys(b) && Wf(a)
    ensures Wf(b)
  {
    forall i, j | 0 <= i < j < |b| ensures b[i].0 != b[j].0 {
      assert Keys(b)[i] == Keys(a)[i] && Keys(b)[j] == Keys(a)[j];
    }
  }

  /** A put keeps a document well formed. */
  lemma PutWf(d: Document, k: string, v: Value)
    requires Wf(d)
    ensures Wf(Put(d, k, v))
  {
    if Get(d, k).Some? {
      SameKeysWf(d, Put(d, k, v));
    } else {
      GetNone(d, k);
      var r := d + [(k, v)];
      forall i, j | 0 <= i < j < |r| ensures r[i].0 != r[j].0 {
        assert r[i] == d[i] && Keys(d)[i] == d[i].0;
        if j < |d| {
          assert r[j] == d[j];
        }
      }
    }
  }

  /** A run of appends, in order. */
  function PutAll(d: Document, es: seq<Entry>): Document
  {
    if es == [] then d
    else
      var last := es[|es| - 1];
      Put(PutAll(d, es[..|es| - 1]), last.0, last.1)
  }

  /** Appending names that are all new just concatenates. */
  lemma {:induction false} PutAllFresh(d: Document, es: seq<Entry>)
    requires Wf(d + es)
    ensures PutAll(d, es) == d + es
    decreases |es|
  {
    if es != [] {
      var init := es[..|es| - 1];
      var last := es[|es| - 1];
      assert (d + init) + [last] == d + es;
      assert Wf(d + init) by {
        forall i, j | 0 <= i < j < |d + init| ensures (d + init)[i].0 != (d + init)[j].0 {
          assert (d + init)[i] == (d + es)[i] && (d + init)[j] == (d + es)[j];
        }
      }
      PutAllFresh(d, init);
      assert last.0 !in Keys(d + init) by {
        forall i | 0 <= i < |d + init| ensures (d + init)[i].0 != last.0 {
          assert (d + init)[i] == (d + es)[i] && last == (d + es)[|d + es| - 1];
        }
      }
      GetNone(d + init, last.0);
    }
  }

  /** A put never moves an existing entry: it either appends or keeps every name in place. */
  lemma PutKeepsNames(d: Document, k: string, v: Value)
    ensures |Put(d, k, v)| >= |d|
    ensures forall i :: 0 <= i < |d| ==> Put(d, k, v)[i].0 == d[i].0
  {
    var r := Put(d, k, v);
    if Get(d, k).Some? {
      forall i | 0 <= i < |d| ensures r[i].0 == d[i].0 {
        assert Keys(r)[i] == Keys(d)[i];
      }
    }
  }

  lemma {:induction false} PutAllKeepsNames(d: Document, es: seq<Entry>)
    ensures |PutAll(d, es)| >= |d|
    ensures forall i :: 0 <= i < |d| ==> PutAll(d, es)[i].0 == d[i].0
    decreases |es|
  {
    if es != [] {
      var init := es[..|es| - 1];
      var last := es[|es| - 1];
      PutAllKeepsNames(d, init);
      PutKeepsNames(PutAll(d, init), last.0, last.1);
    }
  }

  lemma {:induction false} PutAllWf(d: Document, es: seq<Entry>)
    requires Wf(d)
    ensures Wf(PutAll(d, es))
    decreases |es|
  {
    if es != [] {
      var init := es[..|es| - 1];
      var last := es[|es| - 1];
      PutAllWf(d, init);
      PutWf(PutAll(d, init), last.0, last.1);
    }
  }

  /** Looking a name up after appending one entry. */
  lemma {:induction false} GetSnoc(d: Document, e: Entry, k: string)
    ensures Get(d + [e], k) ==
      if Get(d, k).Some? then Get(d, k) else if k == e.0 then Some(e.1) else None
  {
    if d != [] {
      assert (d + [e])[1..] == d[1..] + [e];
      GetSnoc(d[1..], e, k);
    }
  }

  /** After a run of appends, a name holds the value the run gave it, or its old value. */
  lemma {:induction false} GetPutAll(d: Document, es: seq<Entry>, k: string)
    requires Wf(es)
    ensures Get(PutAll(d, es), k) == if Get(es, k).Some? then Get(es, k) else Get(d, k)
    decreases |es|
  {
    if es != [] {
      var init := es[..|es| - 1];
      var last := es[|es| - 1];
      assert es == init + [last];
      assert Wf(init) by {
        forall i, j | 0 <= i < j < |init| ensures init[i].0 != init[j].0 {
          assert init[i] == es[i] && init[j] == es[j];
        }
      }
      GetPutAll(d, init, k);
      GetSnoc(init, last, k);
      if Get(init, k).Some? {
        GetNone(init, k);
        var i :| 0 <= i < |init| && Keys(init)[i] == k;
        assert es[i].0 == k && es[|es| - 1] == last;
      }
    }
  }

  /** Document.remove: drops the entry named k, keeping the order of the rest. */
  function Remove(d: Document, k: string): (r: Document)
    ensures Get(r, k) == None
    ensures forall k' :: k' != k ==> Get(r, k') == Get(d, k')
    ensures forall e :: e in r <==> e in d && e.0 != k
    ensures Wf(d) ==> Wf(r)
  {
    if d == [] then []
    else if d[0].0 == k then Remove(d[1..], k)
    else
      var rest := Remove(d[1..], k);
      var r := [d[0]] + rest;
      assert Wf(d) ==> Wf(r) by {
        if Wf(d) {
          assert Wf(d[1..]);
          forall j | 0 < j < |r| ensures r[0].0 != r[j].0 {
            assert r[j] == rest[j - 1];
            assert r[j] in d[1..];
            var t :| 0 <= t < |d[1..]| && d[1..][t] == r[j];
            assert d[t + 1] == r[j];
          }
        }
      }
      r
  }

  /** Removing a name undoes a put of that name ... */
  lemma {:induction false} RemovePutSame(d: Document, k: string, v: Value)
    ensures Remove(Put(d, k, v), k) == Remove(d, k)
  {
    if d != [] && d[0].0 != k {
      RemovePutSame(d[1..], k, v);
    }
  }

  /** ... and commutes with a put of another name. */
  lemma {:induction false} RemovePutOther(d: Document, k: string, v: Value, other: string)
    requires k != other
    ensures Remove(Put(d, k, v), other) == Put(Remove(d, other), k, v)
  {
    if d != [] && d[0].0 != k {
      RemovePutOther(d[1..], k, v, other);
      if d[0].0 != other {
        var rest := Remove(d[1..], other);
        assert ([d[0]] + rest)[1..] == rest;
      }
    }
  }

  /** Document.equals: the same entry set, whatever the order. */
  predicate SameEntries(a: Document, b: Document) {
    && (forall i :: 0 <= i < |a| ==> Get(b, a[i].0) == Some(a[i].1))
    && (forall j :: 0 <= j < |b| ==> Get(a, b[j].0) == Some(b[j].1))
  }

  /** Within a document, an entry's value is the only one stored under its name. */
  lemma EntryIsLookup(d: Document, e: Entry)
    requires Wf(d) && e in d
    ensures Get(d, e.0) == Some(e.1)
  {
    var i :| 0 <= i < |d| && d[i] == e;
    GetAt(d, i);
  }

  /** For documents, equal entry sets give equal lookups under every name ... */
  lemma SameEntriesLookups(a: Document, b: Document)
    requires Wf(a) && Wf(b) && SameEntries(a, b)
    ensures forall k :: Get(a, k) == Get(b, k)
  {
    forall k ensures Get(a, k) == Get(b, k) {
      if Get(a, k).Some? {
        GetFound(a, k);
        var i :| 0 <= i < |a| && a[i] == (k, Get(a, k).value);
      }
      if Get(b, k).Some? {
        GetFound(b, k);
        var j :| 0 <= j < |b| && b[j] == (k, Get(b, k).value);
      }
    }
  }

  /** ... and equal lookups give equal entry sets. */
  lemma LookupsSameEntries(a: Document, b: Document)
    requires Wf(a) && Wf(b)
    requires forall k :: Get(a, k) == Get(b, k)
    ensures SameEntries(a, b)
  {
    forall i | 0 <= i < |a| ensures Get(b, a[i].0) == Some(a[i].1) {
      GetAt(a, i);
    }
    forall j | 0 <= j < |b| ensures Get(a, b[j].0) == Some(b[j].1) {
      GetAt(b, j);
    }
  }

  /** Whether a field (None when absent) satisfies a query value: an `LteDate` bound
      matches a date at or before it, `Null` matches a null or a missing field, any other
      value matches itself. */
  predicate ValueMatches(field: Option<Value>, cond: Value) {
    if cond.LteDate? then field.Some? && field.value.Date? && field.value.ms <= cond.bound
    else if cond.Null? then field == None || field == Some(Null)
    else field == Some(cond)
  }
}
