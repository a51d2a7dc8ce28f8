/** The queue collection of MongoDB as the queue core uses it: records keyed by their
    `_id`, filter documents read field by field, and the handful of collection
    operations the core issues (each one atomic step). */
module Store {
  import opened Results
  import opened Bson

  /** new Date(Long.MAX_VALUE): the reset timestamp of a record nobody holds. */
  const MAX_DATE: int := 9223372036854775807

  /** One queue document: the user payload and the five bookkeeping fields. */
  datatype Record = Record(
    payload: Document,
    running: bool,
    resetTimestamp: int,
    earliestGet: int,
    priority: int,
    created: int)

  type Records = map<ObjectId, Record>

  const PAYLOAD_PREFIX: string := "payload."

  predicate IsPayloadPath(name: string) {
    |name| >= 8 && name[..8] == PAYLOAD_PREFIX
  }

  /** "payload." + k: the filter or index name of payload field k. */
  function PayloadPath(k: string): (p: string)
    ensures IsPayloadPath(p) && p[8..] == k
  {
    assert (PAYLOAD_PREFIX + k)[..8] == PAYLOAD_PREFIX;
    PAYLOAD_PREFIX + k
  }

  lemma PayloadPathInjective(a: string, b: string)
    ensures PayloadPath(a) == PayloadPath(b) <==> a == b
  {
    if PayloadPath(a) == PayloadPath(b) {
      assert a == PayloadPath(a)[8..];
    }
  }

  /** The value a filter name denotes in a record, None where the record has no such field. */
  function FieldOf(r: Record, name: string): Option<Value> {
    if IsPayloadPath(name) then Get(r.payload, name[8..])
    else if name == "running" then Some(Bool(r.running))
    else if name == "resetTimestamp" then Some(Date(r.resetTimestamp))
    else if name == "earliestGet" then Some(Date(r.earliestGet))
    else if name == "priority" then Some(Int(r.priority))
    else if name == "created" then Some(Date(r.created))
    else None
  }

  /** A filter document selects the records that satisfy every one of its entries. */
  predicate Matches(filter: Document, r: Record) {
    forall i :: 0 <= i < |filter| ==> ValueMatches(FieldOf(r, filter[i].0), filter[i].1)
  }

  lemma MatchesConcat(a: Document, b: Document, r: Record)
    ensures Matches(a + b, r) <==> Matches(a, r) && Matches(b, r)
  {
    if Matches(a, r) && Matches(b, r) {
      forall i | 0 <= i < |a + b|
        ensures ValueMatches(FieldOf(r, (a + b)[i].0), (a + b)[i].1)
      {
        if i >= |a| {
          assert (a + b)[i] == b[i - |a|];
        }
      }
    }
    if Matches(a + b, r) {
      forall i | 0 <= i < |a| ensures ValueMatches(FieldOf(r, a[i].0), a[i].1) {
        assert (a + b)[i] == a[i];
      }
      forall j | 0 <= j < |b| ensures ValueMatches(FieldOf(r, b[j].0), b[j].1) {
        assert (a + b)[|a| + j] == b[j];
      }
    }
  }

  lemma MatchesSingle(e: Entry, r: Record)
    ensures Matches([e], r) <==> ValueMatches(FieldOf(r, e.0), e.1)
  {
    assert [e][0] == e;
  }

  /** The query entries re-addressed into the payload, as the core's append loops build them. */
  function PayloadPaths(q: Document): (ps: Document)
    ensures |ps| == |q|
    ensures forall i :: 0 <= i < |q| ==> ps[i] == (PayloadPath(q[i].0), q[i].1)
  {
    if q == [] then []
    else PayloadPaths(q[..|q| - 1]) + [(PayloadPath(q[|q| - 1].0), q[|q| - 1].1)]
  }

  /** A payload satisfies a query when each query field matches the payload's field. */
  predicate PayloadMatches(q: Document, payload: Document) {
    forall i :: 0 <= i < |q| ==> ValueMatches(Get(payload, q[i].0), q[i].1)
  }

  lemma PayloadPathsMatch(q: Document, r: Record)
    ensures Matches(PayloadPaths(q), r) <==> PayloadMatches(q, r.payload)
  {
    var ps := PayloadPaths(q);
    forall i | 0 <= i < |q|
      ensures FieldOf(r, ps[i].0) == Get(r.payload, q[i].0)
    {
      assert ps[i].0 == PayloadPath(q[i].0);
    }
  }

  /** A name outside the payload that a document lacks stays absent after the payload
      names are appended. */
  lemma PayloadPathsAvoid(head: Document, q: Document, k: string)
    requires !IsPayloadPath(k)
    requires forall i :: 0 <= i < |head| ==> head[i].0 != k
    ensures forall i :: 0 <= i < |head + PayloadPaths(q)| ==> (head + PayloadPaths(q))[i].0 != k
  {
    var ps := PayloadPaths(q);
    forall i | 0 <= i < |head + ps| ensures (head + ps)[i].0 != k {
      if i >= |head| {
        assert (head + ps)[i] == ps[i - |head|];
      } else {
        assert (head + ps)[i] == head[i];
      }
    }
  }

  /** Names outside the payload never collide with re-addressed payload names. */
  predicate NoPayloadPaths(d: Document) {
    forall i :: 0 <= i < |d| ==> !IsPayloadPath(d[i].0)
  }

  lemma PayloadPathsWf(base: Document, q: Document)
    requires Wf(base) && NoPayloadPaths(base) && Wf(q)
    ensures Wf(base + PayloadPaths(q))
  {
    var ps := PayloadPaths(q);
    var d := base + ps;
    forall i, j | 0 <= i < j < |d| ensures d[i].0 != d[j].0 {
      if j >= |base| {
        assert d[j] == ps[j - |base|];
        assert IsPayloadPath(d[j].0);
        if i >= |base| {
          assert d[i] == ps[i - |base|];
          PayloadPathInjective(q[i - |base|].0, q[j - |base|].0);
        }
      }
    }
  }

  /** The sort { priority: 1, created: 1 }: ascending priority, then ascending creation. */
  predicate SortLe(a: Record, b: Record) {
    a.priority < b.priority || (a.priority == b.priority && a.created <= b.created)
  }

  /** id names a matching record with no matching record sorting before it. */
  predicate IsLeast(m: Records, filter: Document, id: ObjectId) {
    && id in m
    && Matches(filter, m[id])
    && forall j :: j in m && Matches(filter, m[j]) ==> SortLe(m[id], m[j])
  }

  predicate NoMatch(m: Records, filter: Document) {
    forall j :: j in m ==> !Matches(filter, m[j])
  }

  /** Two least records agree on the sort key: only ties are left to the server. */
  lemma LeastSortKeyUnique(m: Records, filter: Document, a: ObjectId, b: ObjectId)
    requires IsLeast(m, filter, a) && IsLeast(m, filter, b)
    ensures m[a].priority == m[b].priority && m[a].created == m[b].created
  {
    assert SortLe(m[a], m[b]) && SortLe(m[b], m[a]);
  }

  /** The server's choice for findOneAndUpdate with the sort above; among records that tie on
      the sort key any one may come first. */
  method SelectLeast(m: Records, filter: Document) returns (found: Option<ObjectId>)
    ensures found.None? <==> NoMatch(m, filter)
    ensures found.Some? ==> IsLeast(m, filter, found.value)
  {
    found := None;
    var rest := m.Keys;
    while rest != {}
      invariant rest <= m.Keys
      invariant found.None? ==> forall j :: j in m && j !in rest ==> !Matches(filter, m[j])
      invariant found.Some? ==> found.value in m && Matches(filter, m[found.value])
      invariant found.Some? ==>
        forall j :: j in m && j !in rest && Matches(filter, m[j]) ==> SortLe(m[found.value], m[j])
      decreases |rest|
    {
      var id :| id in rest;
      if Matches(filter, m[id]) && (found.None? || !SortLe(m[found.value], m[id])) {
        found := Some(id);
      }
      rest := rest - {id};
    }
  }

  /** The records the updateMany { $set: { running: false } } leaves behind. */
  function SetNotRunning(m: Records, filter: Document): (r: Records)
    ensures r.Keys == m.Keys
  {
    map id | id in m :: if Matches(filter, m[id]) then m[id].(running := false) else m[id]
  }

  /** The update { $set: { running: true, resetTimestamp: ts } }. */
  function Claim(r: Record, resetTimestamp: int): Record {
    r.(running := true, resetTimestamp := resetTimestamp)
  }

  function MatchingIds(m: Records, filter: Document): set<ObjectId> {
    set id | id in m && Matches(filter, m[id])
  }

  /** Some ObjectId is always unused: the driver's generated ids never collide. */
  lemma {:induction false} UnusedId(used: set<ObjectId>) returns (id: ObjectId)
    ensures id !in used
    ensures forall u :: u in used ==> u < id
    decreases |used|
  {
    if used == {} {
      id := 0;
    } else {
      var u :| u in used;
      var below := UnusedId(used - {u});
      id := if u < below then below else u + 1;
      forall v | v in used ensures v < id {
        if v != u {
          assert v in used - {u};
        }
      }
    }
  }

  /** The queue collection: its documents and the keys of its indexes. */
  class Collection {
    var records: Records
    var indexes: seq<Document>

    constructor (records: Records, indexes: seq<Document>)
      ensures this.records == records && this.indexes == indexes
    {
      this.records := records;
      this.indexes := indexes;
    }

    /** countDocuments(filter). */
    method CountDocuments(filter: Document) returns (n: nat)
      ensures n == |MatchingIds(records, filter)|
    {
      n := |MatchingIds(records, filter)|;
    }

    /** updateMany(filter, { $set: { running: false } }) without upsert. */
    method UpdateManySetNotRunning(filter: Document)
      modifies this
      ensures records == SetNotRunning(old(records), filter)
      ensures indexes == old(indexes)
    {
      records := SetNotRunning(records, filter);
    }

    /** findOneAndUpdate(filter, { $set: { running: true, resetTimestamp: ts } }) sorted by
        priority then created, returning the updated document's `_id` and payload. */
    method FindOneAndClaim(filter: Document, resetTimestamp: int)
      returns (claimed: Option<(ObjectId, Document)>)
      modifies this
      ensures claimed.None? <==> NoMatch(old(records), filter)
      ensures claimed.None? ==> records == old(records)
      ensures claimed.Some? ==>
        var id := claimed.value.0;
        && IsLeast(old(records), filter, id)
        && claimed.value.1 == old(records)[id].payload
        && records == old(records)[id := Claim(old(records)[id], resetTimestamp)]
      ensures indexes == old(indexes)
    {
      var found := SelectLeast(records, filter);
      if found.None? {
        claimed := None;
      } else {
        var id := found.value;
        claimed := Some((id, records[id].payload));
        records := records[id := Claim(records[id], resetTimestamp)];
      }
    }

    /** insertOne: the document gets a fresh `_id`. */
    method InsertOne(r: Record) returns (id: ObjectId)
      modifies this
      ensures id !in old(records)
      ensures records == old(records)[id := r]
      ensures indexes == old(indexes)
    {
      ghost var unused := UnusedId(records.Keys);
      id :| id !in records;
      records := records[id := r];
    }

    /** deleteOne({ _id: id }): nothing happens when no document has that id. */
    method DeleteOne(id: ObjectId)
      modifies this
      ensures records == old(records) - {id}
      ensures indexes == old(indexes)
    {
      records := records - {id};
    }

    /** updateOne({ _id: id }, { $set: every field }, upsert): replaces or inserts. */
    method UpsertOne(id: ObjectId, r: Record)
      modifies this
      ensures records == old(records)[id := r]
      ensures indexes == old(indexes)
    {
      records := records[id := r];
    }

    /** createIndex(key): `visible` says whether the new index already shows in listIndexes. */
    method CreateIndex(key: Document, visible: bool)
      modifies this
      ensures indexes == if visible then old(indexes) + [key] else old(indexes)
      ensures records == old(records)
    {
      if visible {
        indexes := indexes + [key];
      }
    }
  }
}
