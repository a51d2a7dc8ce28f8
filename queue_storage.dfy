/** MongoQueueCore: the lease protocol over the queue collection. `send` inserts a waiting
    record, `get` first releases abandoned leases and then claims the eligible record that
    sorts first, `ack` deletes by id, `ackSend` / `requeue` overwrite (or re-insert) a
    record as waiting, `count` counts matching records. Time is milliseconds, passed in. */
module QueueStorage {
  import opened Results
  import opened Bson
  import opened Store
  import opened IndexManager

  /** A Java double priority: a number (the queue only ever uses whole numbers) or NaN. */
  datatype Priority = Num(p: int) | NaN

  const ID_MESSAGE: string := "id must be an ObjectId"
  const NAN_MESSAGE: string := "priority was NaN"

  /** The filter of the abandoned-lease reset: { running: true, resetTimestamp: { $lte: now } }. */
  function ResetFilter(now: int): Document {
    [("running", Bool(true)), ("resetTimestamp", LteDate(now))]
  }

  /** The claim filter get() builds: not running, the query on the payload, due by now. */
  function ClaimFilter(q: Document, now: int): Document {
    [("running", Bool(false))] + PayloadPaths(q) + [("earliestGet", LteDate(now))]
  }

  /** The count filter, with the running flag when it is given. */
  function CountFilter(q: Document, running: Option<bool>): Document {
    (if running.Some? then [("running", Bool(running.value))] else []) + PayloadPaths(q)
  }

  /** A lease whose holder is presumed dead. */
  predicate Abandoned(r: Record, now: int) {
    r.running && r.resetTimestamp <= now
  }

  /** The collection after the reset step of get(). */
  function ResetAbandoned(m: Records, now: int): Records {
    map id | id in m :: if Abandoned(m[id], now) then m[id].(running := false) else m[id]
  }

  /** A record get(q) may hand out at time now. */
  predicate Eligible(q: Document, now: int, r: Record) {
    !r.running && PayloadMatches(q, r.payload) && r.earliestGet <= now
  }

  /** id is eligible and no eligible record sorts before it. */
  predicate IsLeastEligible(m: Records, q: Document, now: int, id: ObjectId) {
    && id in m
    && Eligible(q, now, m[id])
    && forall j :: j in m && Eligible(q, now, m[j]) ==> SortLe(m[id], m[j])
  }

  /** The record send / ackSend / requeue write: not running, its lease at infinity. */
  function Waiting(payload: Document, earliestGet: int, priority: int, created: int): (r: Record)
    ensures !r.running && r.resetTimestamp == MAX_DATE
  {
    Record(payload, false, MAX_DATE, earliestGet, priority, created)
  }

  /** message.get("id") checked to be an ObjectId: null (or absent) fails with a
      NullPointerException at getClass(), any other class with IllegalArgumentException. */
  function IdOf(message: Document): Result<ObjectId> {
    match Get(message, "id")
    case None => Err(NullPointer)
    case Some(Null) => Err(NullPointer)
    case Some(Oid(id)) => Ok(id)
    case Some(_) => Err(IllegalArgument(ID_MESSAGE))
  }

  // ---- what the filter documents mean ----

  lemma ResetFilterMeaning(now: int, r: Record)
    ensures Matches(ResetFilter(now), r) <==> Abandoned(r, now)
  {
    assert !IsPayloadPath("running");
    assert !IsPayloadPath("resetTimestamp") by {
      assert "resetTimestamp"[..8] == "resetTim";
    }
    var a := ("running", Bool(true));
    var b := ("resetTimestamp", LteDate(now));
    assert ResetFilter(now) == [a] + [b];
    MatchesConcat([a], [b], r);
    MatchesSingle(a, r);
    MatchesSingle(b, r);
  }

  /** The updateMany of get() is exactly the reset of abandoned leases. */
  lemma ResetStepIsReset(m: Records, now: int)
    ensures SetNotRunning(m, ResetFilter(now)) == ResetAbandoned(m, now)
  {
    forall id | id in m ensures SetNotRunning(m, ResetFilter(now))[id] == ResetAbandoned(m, now)[id] {
      ResetFilterMeaning(now, m[id]);
    }
  }

  lemma ClaimFilterMeaning(q: Document, now: int, r: Record)
    ensures Matches(ClaimFilter(q, now), r) <==> Eligible(q, now, r)
  {
    var head: Document := [("running", Bool(false))];
    var tail: Document := [("earliestGet", LteDate(now))];
    assert !IsPayloadPath("running");
    assert !IsPayloadPath("earliestGet") by {
      assert "earliestGet"[..8] == "earliest";
    }
    MatchesConcat(head + PayloadPaths(q), tail, r);
    MatchesConcat(head, PayloadPaths(q), r);
    PayloadPathsMatch(q, r);
    MatchesSingle(head[0], r);
    MatchesSingle(tail[0], r);
  }

  lemma CountFilterMeaning(q: Document, running: Option<bool>, r: Record)
    ensures Matches(CountFilter(q, running), r) <==>
      (running.Some? ==> r.running == running.value) && PayloadMatches(q, r.payload)
  {
    var head: Document := if running.Some? then [("running", Bool(running.value))] else [];
    assert !IsPayloadPath("running");
    MatchesConcat(head, PayloadPaths(q), r);
    PayloadPathsMatch(q, r);
    if running.Some? {
      MatchesSingle(head[0], r);
    }
  }

  /** On a record set, the claim filter selects the same record get() promises. */
  lemma LeastMatchIsLeastEligible(m: Records, q: Document, now: int, id: ObjectId)
    ensures IsLeast(m, ClaimFilter(q, now), id) <==> IsLeastEligible(m, q, now, id)
  {
    forall j | j in m ensures Matches(ClaimFilter(q, now), m[j]) <==> Eligible(q, now, m[j]) {
      ClaimFilterMeaning(q, now, m[j]);
    }
  }

  lemma NoMatchIsNoneEligible(m: Records, q: Document, now: int)
    ensures NoMatch(m, ClaimFilter(q, now)) <==> forall j :: j in m ==> !Eligible(q, now, m[j])
  {
    forall j | j in m ensures Matches(ClaimFilter(q, now), m[j]) <==> Eligible(q, now, m[j]) {
      ClaimFilterMeaning(q, now, m[j]);
    }
  }

  /** The append loops of get() and count(): each query field goes under its payload name. */
  method AppendPayloadFields(base: Document, q: Document) returns (d: Document)
    ensures d == PutAll(base, PayloadPaths(q))
  {
    d := base;
    var i := 0;
    while i < |q|
      invariant 0 <= i <= |q|
      invariant d == PutAll(base, PayloadPaths(q[..i]))
    {
      ghost var ps := PayloadPaths(q[..i + 1]);
      assert ps[..i] == PayloadPaths(q[..i]);
      d := Put(d, PayloadPath(q[i].0), q[i].1);
      assert q[..i + 1][..i] == q[..i];
      i := i + 1;
    }
    assert q[..i] == q;
  }

  /** Over a document's distinct names the append loop is plain concatenation. */
  lemma AppendedFields(base: Document, q: Document)
    requires Wf(base) && NoPayloadPaths(base) && Wf(q)
    ensures PutAll(base, PayloadPaths(q)) == base + PayloadPaths(q)
  {
    PayloadPathsWf(base, q);
    PutAllFresh(base, PayloadPaths(q));
  }

  /** Appending payload names and then one more new name is plain concatenation. */
  lemma AppendedFieldsThen(head: Document, q: Document, k: string, v: Value)
    requires Wf(head) && NoPayloadPaths(head) && Wf(q) && !IsPayloadPath(k)
    requires forall i :: 0 <= i < |head| ==> head[i].0 != k
    ensures Put(PutAll(head, PayloadPaths(q)), k, v) == head + PayloadPaths(q) + [(k, v)]
  {
    AppendedFields(head, q);
    PayloadPathsAvoid(head, q, k);
    PutFresh(head + PayloadPaths(q), k, v);
  }

  lemma BuiltClaimFilter(q: Document, now: int)
    requires Wf(q)
    ensures Put(PutAll([("running", Bool(false))], PayloadPaths(q)), "earliestGet", LteDate(now))
      == ClaimFilter(q, now)
  {
    var head: Document := [("running", Bool(false))];
    FixedNamesNotPayload();
    assert |head[0].0| != |"earliestGet"|;
    AppendedFieldsThen(head, q, "earliestGet", LteDate(now));
  }

  lemma BuiltCountFilter(q: Document, running: Option<bool>)
    requires Wf(q)
    ensures PutAll(if running.Some? then [("running", Bool(running.value))] else [], PayloadPaths(q))
      == CountFilter(q, running)
  {
    assert !IsPayloadPath("running");
    AppendedFields(if running.Some? then [("running", Bool(running.value))] else [], q);
  }

  // ---- protocol properties ----

  /** The reset releases exactly the abandoned leases and touches nothing else. */
  lemma ResetAbandonedEffect(m: Records, now: int)
    ensures ResetAbandoned(m, now).Keys == m.Keys
    ensures forall id :: id in m ==> !Abandoned(ResetAbandoned(m, now)[id], now)
    ensures forall id :: id in m ==> ResetAbandoned(m, now)[id].(running := m[id].running) == m[id]
    ensures forall id :: id in m && !Abandoned(m[id], now) ==> ResetAbandoned(m, now)[id] == m[id]
  {
  }

  /** Resetting twice at the same time is resetting once. */
  lemma ResetAbandonedIdempotent(m: Records, now: int)
    ensures ResetAbandoned(ResetAbandoned(m, now), now) == ResetAbandoned(m, now)
  {
    var once := ResetAbandoned(m, now);
    forall id | id in once ensures ResetAbandoned(once, now)[id] == once[id] {
      assert !Abandoned(once[id], now);
    }
  }

  /** No record comes or goes, and only the lease fields (running, resetTimestamp) of a
      record may differ. */
  predicate LeaseOnlyChange(m: Records, m': Records) {
    && m'.Keys == m.Keys
    && forall id :: id in m ==>
         m'[id].(running := m[id].running, resetTimestamp := m[id].resetTimestamp) == m[id]
  }

  lemma LeaseOnlyChangeTrans(a: Records, b: Records, c: Records)
    requires LeaseOnlyChange(a, b) && LeaseOnlyChange(b, c)
    ensures LeaseOnlyChange(a, c)
  {
    forall id | id in a
      ensures c[id].(running := a[id].running, resetTimestamp := a[id].resetTimestamp) == a[id]
    {
      assert b[id].(running := a[id].running, resetTimestamp := a[id].resetTimestamp) == a[id];
      assert c[id].(running := b[id].running, resetTimestamp := b[id].resetTimestamp) == b[id];
    }
  }

  /** The reset step of get() changes leases only ... */
  lemma ResetIsLeaseOnly(m: Records, now: int)
    ensures LeaseOnlyChange(m, ResetAbandoned(m, now))
  {
    ResetAbandonedEffect(m, now);
  }

  /** ... and so does a claim. */
  lemma ClaimIsLeaseOnly(m: Records, id: ObjectId, resetTimestamp: int)
    requires id in m
    ensures LeaseOnlyChange(m, m[id := Claim(m[id], resetTimestamp)])
  {
  }

  /** A lease holds until its reset timestamp: before it no get() can claim the record
      again, from it on the next get() releases it. */
  lemma LeaseHolds(m: Records, id: ObjectId, resetTimestamp: int, q: Document, t: int)
    requires id in m && m[id].running && m[id].resetTimestamp == resetTimestamp
    ensures t < resetTimestamp ==> ResetAbandoned(m, t)[id] == m[id] && !Eligible(q, t, ResetAbandoned(m, t)[id])
    ensures resetTimestamp <= t ==> !ResetAbandoned(m, t)[id].running
  {
  }

  /** The message get() returns carries the claimed record's id under "id". */
  lemma ReturnedIdIsClaimed(payload: Document, id: ObjectId)
    ensures IdOf(Put(payload, "id", Oid(id))) == Ok(id)
  {
  }

  /** Removing a name the document does not have changes nothing. */
  lemma {:induction false} RemoveAbsent(d: Document, k: string)
    requires Get(d, k).None?
    ensures Remove(d, k) == d
  {
    if d != [] {
      RemoveAbsent(d[1..], k);
    }
  }

  lemma {:induction false} RemoveLast(d: Document, k: string, v: Value)
    requires Get(d, k).None?
    ensures Remove(d + [(k, v)], k) == d
  {
    if d == [] {
      assert Remove([(k, v)], k) == Remove([], k);
    } else {
      assert (d + [(k, v)])[1..] == d[1..] + [(k, v)];
      RemoveLast(d[1..], k, v);
    }
  }

  /** requeue of a message get() returned writes back the payload as it was sent, so long as
      the payload had no "id" field of its own. */
  lemma RequeueRestoresPayload(payload: Document, id: ObjectId)
    requires Get(payload, "id").None?
    ensures Remove(Put(payload, "id", Oid(id)), "id") == payload
  {
    RemoveLast(payload, "id", Oid(id));
  }

  /** A written-back record is handed out again, to the queries its payload matches, once
      its earliestGet has come. */
  lemma WaitingEligible(q: Document, payload: Document, earliestGet: int, priority: int, created: int, now: int)
    ensures Eligible(q, now, Waiting(payload, earliestGet, priority, created))
      <==> PayloadMatches(q, payload) && earliestGet <= now
  {
  }

  function MatchingRecords(m: Records, q: Document, running: Option<bool>): set<ObjectId> {
    set id | id in m && (running.Some? ==> m[id].running == running.value) && PayloadMatches(q, m[id].payload)
  }

  /** count(query) is count(query, true) plus count(query, false). */
  lemma CountSplits(m: Records, q: Document)
    ensures |MatchingRecords(m, q, None)|
      == |MatchingRecords(m, q, Some(true))| + |MatchingRecords(m, q, Some(false))|
  {
    var all := MatchingRecords(m, q, None);
    var yes := MatchingRecords(m, q, Some(true));
    var no := MatchingRecords(m, q, Some(false));
    assert all == yes + no;
    assert yes * no == {};
  }

  lemma CountIsMatching(m: Records, q: Document, running: Option<bool>)
    ensures MatchingIds(m, CountFilter(q, running)) == MatchingRecords(m, q, running)
  {
    forall id | id in m
      ensures Matches(CountFilter(q, running), m[id]) <==>
        (running.Some? ==> m[id].running == running.value) && PayloadMatches(q, m[id].payload)
    {
      CountFilterMeaning(q, running, m[id]);
    }
  }

  class MongoQueueCore {
    const collection: Collection
    const indexes: MongoQueueCoreIndexes

    constructor (collection: Collection)
      ensures this.collection == collection && indexes.collection == collection
    {
      this.collection := collection;
      this.indexes := new MongoQueueCoreIndexes(collection);
    }

    /** ensureGetIndex(beforeSort): the get() index with no fields after the sort. */
    method EnsureGetIndex(before: Option<Document>, visibleMain: seq<bool>, visibleReset: seq<bool>)
      returns (r: Result<()>)
      requires indexes.collection == collection
      requires |visibleMain| == INDEX_CREATION_ATTEMPTS && |visibleReset| == INDEX_CREATION_ATTEMPTS
      modifies collection
      ensures collection.records == old(collection.records)
      ensures before.None? ==> r == Err(NullPointer) && collection.indexes == old(collection.indexes)
      ensures before.Some? && !AllDirections(before.value) ==>
        r == Err(IllegalArgument(DIRECTION_MESSAGE)) && collection.indexes == old(collection.indexes)
      ensures before.Some? && AllDirections(before.value) ==>
        var main := EnsureIndexOutcome(old(collection.indexes), GetIndexKey(before.value, []), visibleMain, 0);
        if main.result.Err? then r == main.result && collection.indexes == main.indexes
        else
          var reset := EnsureIndexOutcome(main.indexes, RESET_INDEX_KEY, visibleReset, 0);
          r == reset.result && collection.indexes == reset.indexes
    {
      r := indexes.EnsureGetIndex(before, Some([]), visibleMain, visibleReset);
    }

    /** The claim filter of get(), built by the append loop. */
    static method BuildClaimFilter(q: Document, now: int) returns (filter: Document)
      requires Wf(q)
      ensures filter == ClaimFilter(q, now)
    {
      filter := AppendPayloadFields([("running", Bool(false))], q);
      filter := Put(filter, "earliestGet", LteDate(now));
      BuiltClaimFilter(q, now);
    }

    /** The polling loop of get(). `clock` holds the readings of System.currentTimeMillis:
        the first before the first attempt, one more after each attempt that found nothing;
        the last one is past the deadline. Nobody else writes to the collection meanwhile,
        so an attempt after a failed one fails too. */
    method PollClaim(filter: Document, resetTimestamp: int, waitDuration: int, clock: seq<int>)
      returns (found: Option<(ObjectId, Document)>, ghost attempts: nat)
      requires |clock| > 0 && clock[|clock| - 1] > clock[0] + (if waitDuration > 0 then waitDuration else 0)
      modifies collection
      ensures collection.indexes == old(collection.indexes)
      ensures found.None? <==> NoMatch(old(collection.records), filter)
      ensures found.None? ==> collection.records == old(collection.records)
      ensures found.Some? ==>
        var id := found.value.0;
        && IsLeast(old(collection.records), filter, id)
        && found.value.1 == old(collection.records)[id].payload
        && collection.records == old(collection.records)[id := Claim(old(collection.records)[id], resetTimestamp)]
        && attempts == 1
      ensures 1 <= attempts < |clock|
      ensures found.None? ==>
        var deadline := clock[0] + (if waitDuration > 0 then waitDuration else 0);
        (forall j :: 0 <= j < attempts ==> clock[j] <= deadline) && clock[attempts] > deadline
    {
      found := None;
      attempts := 0;
      var deadline := clock[0] + (if waitDuration > 0 then waitDuration else 0);
      var i := 0;
      var nowTimestamp := clock[0];
      while nowTimestamp <= deadline
        invariant 0 <= i < |clock| && nowTimestamp == clock[i]
        invariant attempts == i && found.None?
        invariant collection.records == old(collection.records)
        invariant collection.indexes == old(collection.indexes)
        invariant forall j :: 0 <= j < i ==> clock[j] <= deadline
        invariant i == 0 ==> nowTimestamp <= deadline
        invariant i > 0 ==> NoMatch(old(collection.records), filter)
        decreases |clock| - i
      {
        found := collection.FindOneAndClaim(filter, resetTimestamp);
        attempts := attempts + 1;
        if found.Some? {
          return;
        }
        i := i + 1;
        nowTimestamp := clock[i];
      }
    }

    /** The first step of get(): updateMany releasing every abandoned lease. */
    method ReleaseAbandoned(now: int)
      modifies collection
      ensures collection.records == ResetAbandoned(old(collection.records), now)
      ensures collection.indexes == old(collection.indexes)
    {
      collection.UpdateManySetNotRunning(ResetFilter(now));
      ResetStepIsReset(old(collection.records), now);
    }

    /** The rest of get(): build the claim filter and poll for the first eligible record. */
    method ClaimEligible(q: Document, now: int, resetTimestamp: int, waitDuration: int, clock: seq<int>)
      returns (message: Option<Document>, ghost claimed: Option<ObjectId>, ghost attempts: nat)
      requires Wf(q)
      requires |clock| > 0 && clock[|clock| - 1] > clock[0] + (if waitDuration > 0 then waitDuration else 0)
      modifies collection
      ensures collection.indexes == old(collection.indexes)
      ensures claimed.None? <==> forall j :: j in old(collection.records) ==> !Eligible(q, now, old(collection.records)[j])
      ensures claimed.None? ==> message.None? && collection.records == old(collection.records)
      ensures claimed.Some? ==>
        var id := claimed.value;
        && IsLeastEligible(old(collection.records), q, now, id)
        && collection.records == old(collection.records)[id := Claim(old(collection.records)[id], resetTimestamp)]
        && message == Some(Put(old(collection.records)[id].payload, "id", Oid(id)))
        && attempts == 1
      ensures 1 <= attempts < |clock|
      ensures claimed.None? ==>
        var deadline := clock[0] + (if waitDuration > 0 then waitDuration else 0);
        (forall j :: 0 <= j < attempts ==> clock[j] <= deadline) && clock[attempts] > deadline
    {
      var filter := BuildClaimFilter(q, now);
      var found;
      found, attempts := PollClaim(filter, resetTimestamp, waitDuration, clock);
      if found.None? {
        NoMatchIsNoneEligible(old(collection.records), q, now);
        return None, None, attempts;
      }
      var id := found.value.0;
      LeastMatchIsLeastEligible(old(collection.records), q, now, id);
      claimed := Some(id);
      message := Some(Put(found.value.1, "id", Oid(id)));
    }

    /** get(query, resetDuration, waitDuration, pollDuration): release abandoned leases, then
        claim the first eligible record in (priority, created) order and return its payload
        with "id" added; null when nothing is eligible. */
    method Get(query: Option<Document>, resetDuration: int, waitDuration: int, now: int, clock: seq<int>)
      returns (r: Result<Option<Document>>, ghost claimed: Option<ObjectId>, ghost attempts: nat)
      requires query.Some? ==> Wf(query.value)
      requires |clock| > 0 && clock[|clock| - 1] > clock[0] + (if waitDuration > 0 then waitDuration else 0)
      modifies collection
      ensures collection.indexes == old(collection.indexes)
      ensures query.None? ==>
        r == Err(NullPointer) && collection.records == old(collection.records) && claimed.None?
      ensures query.Some? ==>
        var reset := ResetAbandoned(old(collection.records), now);
        && r.Ok?
        && (claimed.None? <==> forall j :: j in reset ==> !Eligible(query.value, now, reset[j]))
        && (claimed.None? ==> r.value.None? && collection.records == reset)
        && (claimed.Some? ==>
              var id := claimed.value;
              && IsLeastEligible(reset, query.value, now, id)
              && collection.records == reset[id := Claim(reset[id], now + resetDuration * 1000)]
              && r.value == Some(Put(reset[id].payload, "id", Oid(id))))
      ensures query.Some? ==> 1 <= attempts < |clock|
      ensures claimed.Some? ==> attempts == 1
      ensures query.Some? && claimed.None? ==>
        var deadline := clock[0] + (if waitDuration > 0 then waitDuration else 0);
        (forall j :: 0 <= j < attempts ==> clock[j] <= deadline) && clock[attempts] > deadline
    {
      if query.None? {
        return Err(NullPointer), None, 0;
      }
      ReleaseAbandoned(now);
      var resetTimestamp := now + resetDuration * 1000;
      var message;
      message, claimed, attempts := ClaimEligible(query.value, now, resetTimestamp, waitDuration, clock);
      r := Ok(message);
    }

    /** count(query) and count(query, running): how many records match; nothing changes. */
    method Count(query: Option<Document>, running: Option<bool>) returns (r: Result<nat>)
      requires query.Some? ==> Wf(query.value)
      ensures query.None? ==> r == Err(NullPointer)
      ensures query.Some? ==> r == Ok(|MatchingRecords(collection.records, query.value, running)|)
    {
      if query.None? {
        return Err(NullPointer);
      }
      var base: Document := if running.Some? then [("running", Bool(running.value))] else [];
      var filter := AppendPayloadFields(base, query.value);
      BuiltCountFilter(query.value, running);
      CountIsMatching(collection.records, query.value, running);
      var n := collection.CountDocuments(filter);
      r := Ok(n);
    }

    /** ack(message): delete the record named by message.id. */
    method Ack(message: Option<Document>) returns (r: Result<()>)
      modifies collection
      ensures collection.indexes == old(collection.indexes)
      ensures message.None? ==> r == Err(NullPointer) && collection.records == old(collection.records)
      ensures message.Some? && IdOf(message.value).Err? ==>
        r == Err(IdOf(message.value).error) && collection.records == old(collection.records)
      ensures message.Some? && IdOf(message.value).Ok? ==>
        r == Ok(()) && collection.records == old(collection.records) - {IdOf(message.value).value}
    {
      if message.None? {
        return Err(NullPointer);
      }
      var id := IdOf(message.value);
      if id.Err? {
        return Err(id.error);
      }
      collection.DeleteOne(id.value);
      r := Ok(());
    }

    /** ackSend(message, payload, earliestGet, priority): overwrite the record named by
        message.id as a waiting record with the new payload, inserting it if it is gone. */
    method AckSend(message: Option<Document>, payload: Option<Document>, earliestGet: Option<int>,
                   priority: Priority, now: int)
      returns (r: Result<()>)
      modifies collection
      ensures collection.indexes == old(collection.indexes)
      ensures r.Err? ==> collection.records == old(collection.records)
      ensures message.None? || payload.None? || earliestGet.None? ==> r == Err(NullPointer)
      ensures message.Some? && payload.Some? && earliestGet.Some? && priority.NaN? ==>
        r == Err(IllegalArgument(NAN_MESSAGE))
      ensures message.Some? && payload.Some? && earliestGet.Some? && priority.Num? ==>
        match IdOf(message.value)
        case Err(e) => r == Err(e)
        case Ok(id) =>
          && r == Ok(())
          && collection.records ==
               old(collection.records)[id := Waiting(payload.value, earliestGet.value, priority.p, now)]
    {
      if message.None? || payload.None? || earliestGet.None? {
        return Err(NullPointer);
      }
      if priority.NaN? {
        return Err(IllegalArgument(NAN_MESSAGE));
      }
      var id := IdOf(message.value);
      if id.Err? {
        return Err(id.error);
      }
      collection.UpsertOne(id.value, Waiting(payload.value, earliestGet.value, priority.p, now));
      r := Ok(());
    }

    /** requeue(message, earliestGet, priority): ackSend of the message itself without its
        "id" field. */
    method Requeue(message: Option<Document>, earliestGet: Option<int>, priority: Priority, now: int)
      returns (r: Result<()>)
      modifies collection
      ensures collection.indexes == old(collection.indexes)
      ensures r.Err? ==> collection.records == old(collection.records)
      ensures message.None? || earliestGet.None? ==> r == Err(NullPointer)
      ensures message.Some? && earliestGet.Some? && priority.NaN? ==> r == Err(IllegalArgument(NAN_MESSAGE))
      ensures message.Some? && earliestGet.Some? && priority.Num? ==>
        match IdOf(message.value)
        case Err(e) => r == Err(e)
        case Ok(id) =>
          && r == Ok(())
          && collection.records ==
               old(collection.records)[id := Waiting(Remove(message.value, "id"), earliestGet.value, priority.p, now)]
    {
      if message.None? || earliestGet.None? {
        return Err(NullPointer);
      }
      if priority.NaN? {
        return Err(IllegalArgument(NAN_MESSAGE));
      }
      var id := IdOf(message.value);
      if id.Err? {
        return Err(id.error);
      }
      var forRequeue := Remove(message.value, "id");
      r := AckSend(message, Some(forRequeue), earliestGet, priority, now);
    }

    /** send(payload, earliestGet, priority): insert one new waiting record. */
    method Send(payload: Option<Document>, earliestGet: Option<int>, priority: Priority, now: int)
      returns (r: Result<()>, ghost id: ObjectId)
      modifies collection
      ensures collection.indexes == old(collection.indexes)
      ensures payload.None? || earliestGet.None? ==>
        r == Err(NullPointer) && collection.records == old(collection.records)
      ensures payload.Some? && earliestGet.Some? && priority.NaN? ==>
        r == Err(IllegalArgument(NAN_MESSAGE)) && collection.records == old(collection.records)
      ensures payload.Some? && earliestGet.Some? && priority.Num? ==>
        && r == Ok(())
        && id !in old(collection.records)
        && collection.records == old(collection.records)[id := Waiting(payload.value, earliestGet.value, priority.p, now)]
    {
      id := 0;
      if payload.None? || earliestGet.None? {
        return Err(NullPointer), id;
      }
      if priority.NaN? {
        return Err(IllegalArgument(NAN_MESSAGE)), id;
      }
      id := collection.InsertOne(Waiting(payload.value, earliestGet.value, priority.p, now));
      r := Ok(());
    }
  }
}
