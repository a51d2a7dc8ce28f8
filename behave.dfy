/** MongoRoutedQueueBehave: the queue behaviour of a routed queue box on top of the queue
    core. Messages are stored as their serialised documents; a consumer fetches the
    documents whose "destination" is its id. The serialiser is a pair of functions the
    model does not interpret. */
module Behave {
  import opened Results
  import opened Bson
  import opened Store
  import opened IndexManager
  import opened QueueStorage
  import opened Props
  import opened Messages

  const FIELD_SOURCE: string := "source"
  const FIELD_DESTINATION: string := "destination"
  const FIELD_ID: string := "id"

  const PROPERTY_FETCH_LIMIT: string := "queue.fetch.limit"
  const PROPERTY_RESET_TIMEOUT: string := "queue.message.timeout"

  const DEFAULT_FETCH_LIMIT: int := 100
  const DEFAULT_RESET_TIMEOUT_SEC: int := 5 * 60
  const RETRY_IMMEDIATELY: int := 0
  const WAIT_FOR_RETRY_DEFAULT_MILLS: int := 100

  /** The beforeSort fields of the adapter's get index: { destination: 1 }. */
  const DESTINATION_INDEX: Document := [(FIELD_DESTINATION, Int(1))]

  /** The clock of one get() call: its `new Date()` and its System.currentTimeMillis
      readings, the last one past the wait deadline. */
  datatype GetCall = GetCall(now: int, clock: seq<int>)

  predicate Expires(call: GetCall) {
    |call.clock| > 0 && call.clock[|call.clock| - 1] > call.clock[0] + WAIT_FOR_RETRY_DEFAULT_MILLS
  }

  /** The query find() hands to get(): { destination: consumerId }. */
  function FindQuery(consumerId: string): Document {
    [(FIELD_DESTINATION, Str(consumerId))]
  }

  /** A nullable String as a document value. */
  function NullableString(s: Option<string>): Value {
    if s.Some? then Str(s.value) else Null
  }

  /** A nullable document field as an object: null when absent. */
  function ValueOrNull(v: Option<Value>): Value {
    if v.Some? then v.value else Null
  }

  predicate StringOrNull(v: Option<Value>) {
    v.None? || v.value.Null? || v.value.Str?
  }

  /** Document.getString(name): the cast of the field to String; null stays null, any other
      value is a ClassCastException. */
  function GetString(d: Document, name: string): (r: Result<Option<string>>)
    ensures r.Ok? <==> StringOrNull(Get(d, name))
    ensures r.Err? ==> r.error == ClassCast
    ensures r.Ok? ==> NullableString(r.value) == ValueOrNull(Get(d, name))
  {
    match Get(d, name)
    case None => Ok(None)
    case Some(Null) => Ok(None)
    case Some(Str(s)) => Ok(Some(s))
    case Some(_) => Err(ClassCast)
  }

  /** The document without the routing fields, as find() hands it to the deserialiser. */
  function Strip(d: Document): Document {
    Remove(Remove(d, FIELD_DESTINATION), FIELD_SOURCE)
  }

  /** What one iteration of find() makes of a document get() returned: the container of the
      deserialised message with its source, destination and id restored. */
  function Unwrap<B>(doc: Document, deserialize: Document -> RoutedMessage<B>): (r: Result<MessageContainer<B>>)
    ensures r.Err? <==>
      !StringOrNull(Get(doc, FIELD_DESTINATION)) || !StringOrNull(Get(doc, FIELD_SOURCE))
    ensures r.Err? ==> r.error == ClassCast
    ensures r.Ok? ==>
      && r.value.id == ValueOrNull(Get(doc, FIELD_ID))
      && r.value.priority == PRIORITY_DEFAULT
      && NullableString(r.value.message.destination) == ValueOrNull(Get(doc, FIELD_DESTINATION))
      && NullableString(r.value.message.source) == ValueOrNull(Get(doc, FIELD_SOURCE))
      && r.value.message.body == deserialize(Strip(Remove(doc, FIELD_ID))).body
  {
    var id := ValueOrNull(Get(doc, FIELD_ID));
    var withoutId := Remove(doc, FIELD_ID);
    match GetString(withoutId, FIELD_DESTINATION)
    case Err(e) => Err(e)
    case Ok(destination) =>
      match GetString(withoutId, FIELD_SOURCE)
      case Err(e) => Err(e)
      case Ok(source) =>
        var message := deserialize(Strip(withoutId));
        Ok(NewContainer(message.(source := source, destination := destination)).(id := id))
  }

  /** The document reset() requeues: the serialised message with source, destination and
      the container's id appended. */
  function ResetDocument<B>(serialized: Document, message: RoutedMessage<B>, id: Value): Document {
    var withSource := Put(serialized, FIELD_SOURCE, NullableString(message.source));
    var withDestination := Put(withSource, FIELD_DESTINATION, NullableString(message.destination));
    Put(withDestination, FIELD_ID, id)
  }

  /** A serialiser pair that gives a message back once the routing and id fields are
      restored, on a document with no "id" field of its own. */
  ghost predicate Faithful<B>(serialize: RoutedMessage<B> -> Document, deserialize: Document -> RoutedMessage<B>,
                        m: RoutedMessage<B>)
  {
    && Get(serialize(m), FIELD_ID).None?
    && deserialize(Strip(serialize(m))).(source := m.source, destination := m.destination) == m
  }

  /** A serialiser that writes the routing fields itself, as a bean serialiser does for
      getSource and getDestination. */
  predicate WritesRoute<B>(serialize: RoutedMessage<B> -> Document, m: RoutedMessage<B>) {
    && Get(serialize(m), FIELD_SOURCE) == Some(NullableString(m.source))
    && Get(serialize(m), FIELD_DESTINATION) == Some(NullableString(m.destination))
  }

  /** Reading back a nullable string written with NullableString. */
  lemma GetStringWritten(d: Document, name: string, s: Option<string>)
    requires Get(d, name) == Some(NullableString(s))
    ensures GetString(d, name) == Ok(s)
  {
  }

  /** Stripping the routing fields forgets that they were (re)written. */
  lemma StripRouted<B>(serialized: Document, m: RoutedMessage<B>)
    ensures Strip(Put(Put(serialized, FIELD_SOURCE, NullableString(m.source)),
                      FIELD_DESTINATION, NullableString(m.destination)))
         == Strip(serialized)
  {
    var withSource := Put(serialized, FIELD_SOURCE, NullableString(m.source));
    RemovePutSame(withSource, FIELD_DESTINATION, NullableString(m.destination));
    RemovePutOther(serialized, FIELD_SOURCE, NullableString(m.source), FIELD_DESTINATION);
    RemovePutSame(Remove(serialized, FIELD_DESTINATION), FIELD_SOURCE, NullableString(m.source));
  }

  /** The record reset() writes holds the serialised message with the routing fields. */
  lemma ResetStoredPayload<B>(serialized: Document, m: RoutedMessage<B>, id: Value)
    requires Get(serialized, FIELD_ID).None?
    ensures Remove(ResetDocument(serialized, m, id), FIELD_ID)
         == Put(Put(serialized, FIELD_SOURCE, NullableString(m.source)),
                FIELD_DESTINATION, NullableString(m.destination))
  {
    var routed := Put(Put(serialized, FIELD_SOURCE, NullableString(m.source)),
                      FIELD_DESTINATION, NullableString(m.destination));
    RemovePutSame(routed, FIELD_ID, id);
    RemoveAbsent(routed, FIELD_ID);
  }

  /** A message reset() wrote back under ObjectId x comes out of find() as a container
      holding the same message and id x, with the default priority: the priority it had is
      not kept. */
  lemma ResetThenFind<B>(serialize: RoutedMessage<B> -> Document, deserialize: Document -> RoutedMessage<B>,
                         m: RoutedMessage<B>, x: ObjectId)
    requires Faithful(serialize, deserialize, m)
    ensures
      var stored := Remove(ResetDocument(serialize(m), m, Oid(x)), FIELD_ID);
      Unwrap(Put(stored, FIELD_ID, Oid(x)), deserialize) == Ok(MessageContainer(Oid(x), m, PRIORITY_DEFAULT))
  {
    var ser := serialize(m);
    var routed := Put(Put(ser, FIELD_SOURCE, NullableString(m.source)),
                      FIELD_DESTINATION, NullableString(m.destination));
    ResetStoredPayload(ser, m, Oid(x));
    RequeueRestoresPayload(routed, x);
    StripRouted(ser, m);
    GetStringWritten(routed, FIELD_DESTINATION, m.destination);
    GetStringWritten(routed, FIELD_SOURCE, m.source);
  }

  /** A message put() stored comes out of find() whole when the serialiser writes its
      routing fields. */
  lemma PutThenFind<B>(serialize: RoutedMessage<B> -> Document, deserialize: Document -> RoutedMessage<B>,
                       m: RoutedMessage<B>, x: ObjectId)
    requires Faithful(serialize, deserialize, m) && WritesRoute(serialize, m)
    ensures Unwrap(Put(serialize(m), FIELD_ID, Oid(x)), deserialize) == Ok(MessageContainer(Oid(x), m, PRIORITY_DEFAULT))
  {
    var ser := serialize(m);
    RequeueRestoresPayload(ser, x);
    GetStringWritten(ser, FIELD_DESTINATION, m.destination);
    GetStringWritten(ser, FIELD_SOURCE, m.source);
  }

  /** The record put() writes for a message routed to d is one find() by consumer d can
      claim, as soon as its time has come. */
  lemma PutIsFoundBy<B>(serialize: RoutedMessage<B> -> Document, m: RoutedMessage<B>, d: string,
                        sent: int, priority: int, t: int)
    requires WritesRoute(serialize, m) && m.destination == Some(d)
    ensures Eligible(FindQuery(d), t, Waiting(serialize(m), sent, priority, sent)) <==> sent <= t
  {
    WaitingEligible(FindQuery(d), serialize(m), sent, priority, sent, t);
    assert FindQuery(d)[0] == (FIELD_DESTINATION, Str(d));
  }

  /** The record reset() writes back at time `now` for a message routed to d is one find()
      by consumer d can claim again from `now` on: reset writes the destination itself, so
      no assumption on the serialiser is needed. */
  lemma ResetIsFoundBy<B>(serialize: RoutedMessage<B> -> Document, m: RoutedMessage<B>, d: string,
                          x: ObjectId, now: int, t: int)
    requires m.destination == Some(d)
    ensures Eligible(FindQuery(d), t, Waiting(Remove(ResetDocument(serialize(m), m, Oid(x)), FIELD_ID), now, 0, now))
      <==> now <= t
  {
    var stored := Remove(ResetDocument(serialize(m), m, Oid(x)), FIELD_ID);
    WaitingEligible(FindQuery(d), stored, now, 0, now, t);
    assert FindQuery(d)[0] == (FIELD_DESTINATION, Str(d));
  }

  /** get() only returns documents whose destination is the query's. */
  lemma FoundIsAddressed(payload: Document, consumerId: string, id: ObjectId)
    requires PayloadMatches(FindQuery(consumerId), payload)
    ensures Get(Put(payload, FIELD_ID, Oid(id)), FIELD_DESTINATION) == Some(Str(consumerId))
  {
    assert FindQuery(consumerId)[0] == (FIELD_DESTINATION, Str(consumerId));
  }

  class RoutedQueueBehave<B> {
    const serialize: RoutedMessage<B> -> Document
    const deserialize: Document -> RoutedMessage<B>
    const core: MongoQueueCore
    const fetchLimit: int
    const resetTimeout: int

    constructor (core: MongoQueueCore, serialize: RoutedMessage<B> -> Document,
                 deserialize: Document -> RoutedMessage<B>, fetchLimit: int, resetTimeout: int)
      ensures this.core == core && this.serialize == serialize && this.deserialize == deserialize
      ensures this.fetchLimit == fetchLimit && this.resetTimeout == resetTimeout
    {
      this.core := core;
      this.serialize := serialize;
      this.deserialize := deserialize;
      this.fetchLimit := fetchLimit;
      this.resetTimeout := resetTimeout;
    }

    /** new MongoRoutedQueueBehave(collection, properties, class): a core over the
        collection, its get index with { destination: 1 } before the sort, and the fetch
        limit and reset timeout from the properties. A failing ensureGetIndex fails the
        construction. */
    static method Create(collection: Collection, properties: PropertiesBox,
                         serialize: RoutedMessage<B> -> Document, deserialize: Document -> RoutedMessage<B>,
                         visibleMain: seq<bool>, visibleReset: seq<bool>)
      returns (r: Result<RoutedQueueBehave<B>>)
      requires |visibleMain| == INDEX_CREATION_ATTEMPTS && |visibleReset| == INDEX_CREATION_ATTEMPTS
      modifies collection
      ensures collection.records == old(collection.records)
      ensures
        var main := EnsureIndexOutcome(old(collection.indexes), GetIndexKey(DESTINATION_INDEX, []), visibleMain, 0);
        var reset := EnsureIndexOutcome(main.indexes, RESET_INDEX_KEY, visibleReset, 0);
        && (main.result.Err? ==> r == Err(main.result.error) && collection.indexes == main.indexes)
        && (main.result.Ok? ==> collection.indexes == reset.indexes)
        && (main.result.Ok? && reset.result.Err? ==> r == Err(reset.result.error))
        && (main.result.Ok? && reset.result.Ok? ==>
              && r.Ok? && fresh(r.value) && fresh(r.value.core)
              && r.value.core.collection == collection
              && r.value.serialize == serialize && r.value.deserialize == deserialize
              && r.value.fetchLimit == TryGetIntProperty(properties, PROPERTY_FETCH_LIMIT, DEFAULT_FETCH_LIMIT)
              && r.value.resetTimeout == TryGetIntProperty(properties, PROPERTY_RESET_TIMEOUT, DEFAULT_RESET_TIMEOUT_SEC))
    {
      var core := new MongoQueueCore(collection);
      var indexDocument := Bson.Put([], FIELD_DESTINATION, Int(1));
      assert AllDirections(indexDocument) by {
        assert indexDocument == DESTINATION_INDEX;
        assert IsDirection(indexDocument[0].1);
      }
      var ensured := core.EnsureGetIndex(Some(indexDocument), visibleMain, visibleReset);
      if ensured.Err? {
        return Err(ensured.error);
      }
      var fetchLimit := TryGetIntProperty(properties, PROPERTY_FETCH_LIMIT, DEFAULT_FETCH_LIMIT);
      var resetTimeout := TryGetIntProperty(properties, PROPERTY_RESET_TIMEOUT, DEFAULT_RESET_TIMEOUT_SEC);
      var behave := new RoutedQueueBehave(core, serialize, deserialize, fetchLimit, resetTimeout);
      r := Ok(behave);
    }

    method GetFetchLimit() returns (n: int)
      ensures n == fetchLimit
    {
      n := fetchLimit;
    }

    /** put(event): send the serialised message, due now, with the container's priority. */
    method Put(event: MessageContainer<B>, now: int) returns (ghost id: ObjectId)
      modifies core.collection
      ensures core.collection.indexes == old(core.collection.indexes)
      ensures id !in old(core.collection.records)
      ensures core.collection.records ==
        old(core.collection.records)[id := Waiting(serialize(event.message), now, event.priority, now)]
    {
      var message := event.message;
      var queueMessage := serialize(message);
      // this routed copy is built and then dropped: it is not the document that is sent
      queueMessage := Bson.Put(queueMessage, FIELD_SOURCE, NullableString(message.source));
      queueMessage := Bson.Put(queueMessage, FIELD_DESTINATION, NullableString(message.destination));
      var sent;
      sent, id := core.Send(Some(serialize(event.message)), Some(now), Num(event.priority), now);
    }

    /** One get() of find(): the next document for the consumer, or null. */
    method FetchOne(consumerId: string, call: GetCall) returns (doc: Option<Document>, ghost id: ObjectId)
      requires Expires(call)
      modifies core.collection
      ensures core.collection.indexes == old(core.collection.indexes)
      ensures LeaseOnlyChange(old(core.collection.records), core.collection.records)
      ensures doc.Some? ==>
        && ClaimedBy(old(core.collection.records), core.collection.records, consumerId, call.now, resetTimeout, id)
        && id in core.collection.records
        && doc.value == Bson.Put(core.collection.records[id].payload, FIELD_ID, Oid(id))
        && Get(doc.value, FIELD_DESTINATION) == Some(Str(consumerId))
      ensures doc.None? ==> NoneClaimable(old(core.collection.records), core.collection.records, consumerId, call.now)
    {
      var query := Bson.Put([], FIELD_DESTINATION, Str(consumerId));
      assert query == FindQuery(consumerId);
      ghost var before := core.collection.records;
      var got, claimed, attempts :=
        core.Get(Some(query), resetTimeout, WAIT_FOR_RETRY_DEFAULT_MILLS, call.now, call.clock);
      ghost var reset := ResetAbandoned(before, call.now);
      ResetIsLeaseOnly(before, call.now);
      doc := got.value;
      id := 0;
      if claimed.Some? {
        id := claimed.value;
        ClaimIsLeaseOnly(reset, id, call.now + resetTimeout * 1000);
        LeaseOnlyChangeTrans(before, reset, core.collection.records);
        FoundIsAddressed(reset[id].payload, consumerId, id);
        assert ClaimedBy(before, core.collection.records, consumerId, call.now, resetTimeout, id);
      } else {
        assert NoneClaimable(before, core.collection.records, consumerId, call.now);
      }
    }

    /** The body of find()'s loop after get(): take the id out, read and remove the routing
        fields, deserialise, and put the routing fields and the id back on the container. */
    method UnwrapFound(doc: Document) returns (r: Result<MessageContainer<B>>)
      ensures r == Unwrap(doc, deserialize)
    {
      var queueMessage := doc;
      var id := ValueOrNull(Get(queueMessage, FIELD_ID));
      queueMessage := Bson.Remove(queueMessage, FIELD_ID);
      var destination := GetString(queueMessage, FIELD_DESTINATION);
      if destination.Err? {
        return Err(ClassCast);
      }
      var source := GetString(queueMessage, FIELD_SOURCE);
      if source.Err? {
        return Err(ClassCast);
      }
      queueMessage := Bson.Remove(queueMessage, FIELD_DESTINATION);
      queueMessage := Bson.Remove(queueMessage, FIELD_SOURCE);
      var message := deserialize(queueMessage);
      message := message.(source := source.value, destination := destination.value);
      var messageContainer := NewContainer(message);
      messageContainer := messageContainer.(id := id);
      r := Ok(messageContainer);
    }

    /** find(consumer): up to fetchLimit get() calls with { destination: consumerId }, the
        reset timeout, a wait of 100 ms and no poll pause; stops at the first null. Every
        document is turned into a container by Unwrap; a routing field that is not a String
        ends the call with a ClassCastException. */
    method Find(consumer: QueueConsumer<B>, calls: seq<GetCall>)
      returns (r: Result<seq<MessageContainer<B>>>, ghost docs: seq<Document>, ghost ids: seq<ObjectId>,
               gets: nat, ghost states: seq<Records>)
      requires fetchLimit <= |calls|
      requires forall i :: 0 <= i < |calls| ==> Expires(calls[i])
      modifies core.collection
      ensures core.collection.indexes == old(core.collection.indexes)
      ensures LeaseOnlyChange(old(core.collection.records), core.collection.records)
      ensures gets <= (if fetchLimit > 0 then fetchLimit else 0)
      ensures |ids| == |docs| <= gets
      ensures |states| == gets + 1 && states[0] == old(core.collection.records) && states[gets] == core.collection.records
      ensures ClaimRun(states, consumer.consumerId, calls, resetTimeout, ids)
      ensures FoundDocs(core.collection.records, consumer.consumerId, docs, ids)
      ensures r.Ok? ==> UnwrapsTo(docs, deserialize, r.value)
      ensures r.Ok? ==> forall i :: 0 <= i < |docs| ==>
        r.value[i].id == Oid(ids[i]) && r.value[i].message.destination == Some(consumer.consumerId)
      ensures r.Err? ==>
        && r == Err(ClassCast) && 0 < |docs| == gets
        && Unwrap(docs[|docs| - 1], deserialize).Err?
      ensures r.Ok? && gets == |docs| ==> gets == (if fetchLimit > 0 then fetchLimit else 0)
      ensures r.Ok? && |docs| < gets ==>
        gets == |docs| + 1 &&
        NoneClaimable(states[gets - 1], states[gets], consumer.consumerId, calls[gets - 1].now)
    {
      var resultList: seq<MessageContainer<B>> := [];
      docs, ids, gets := [], [], 0;
      states := [core.collection.records];
      var limit := fetchLimit;
      while limit > 0
        invariant gets == fetchLimit - limit
        invariant fetchLimit > 0 ==> limit >= 0
        invariant fetchLimit <= 0 ==> gets == 0
        invariant |ids| == |docs| == gets
        invariant |states| == gets + 1 && states[0] == old(core.collection.records)
        invariant states[gets] == core.collection.records
        invariant ClaimRun(states, consumer.consumerId, calls, resetTimeout, ids)
        invariant core.collection.indexes == old(core.collection.indexes)
        invariant LeaseOnlyChange(old(core.collection.records), core.collection.records)
        invariant FoundDocs(core.collection.records, consumer.consumerId, docs, ids)
        invariant UnwrapsTo(docs, deserialize, resultList)
      {
        limit := limit - 1;
        ghost var before := core.collection.records;
        var found, doc, id := FindStep(consumer.consumerId, calls[gets], docs, ids);
        gets := gets + 1;
        LeaseOnlyChangeTrans(old(core.collection.records), before, core.collection.records);
        if found.None? {
          ClaimRunExtend(states, consumer.consumerId, calls, resetTimeout, ids, core.collection.records);
          states := states + [core.collection.records];
          break;
        }
        ClaimRunSnoc(states, consumer.consumerId, calls, resetTimeout, ids, core.collection.records, id);
        states := states + [core.collection.records];
        ghost var earlier := docs;
        docs := docs + [doc];
        ids := ids + [id];
        assert docs[..|docs| - 1] == earlier;
        if found.value.Err? {
          return Err(ClassCast), docs, ids, gets, states;
        }
        UnwrapsToSnoc(docs, deserialize, resultList, found.value.value);
        resultList := resultList + [found.value.value];
      }
      r := Ok(resultList);
      FoundDocsUnwrapped(core.collection.records, consumer.consumerId, docs, ids, resultList, deserialize);
    }

    /** One turn of find()'s loop: a get(), and for a document the unwrapping into a
        container. The documents found so far stay tied to their records. */
    method FindStep(consumerId: string, call: GetCall, ghost docs: seq<Document>, ghost ids: seq<ObjectId>)
      returns (found: Option<Result<MessageContainer<B>>>, ghost doc: Document, ghost id: ObjectId)
      requires Expires(call)
      requires FoundDocs(core.collection.records, consumerId, docs, ids)
      modifies core.collection
      ensures core.collection.indexes == old(core.collection.indexes)
      ensures LeaseOnlyChange(old(core.collection.records), core.collection.records)
      ensures found.None? ==>
        && FoundDocs(core.collection.records, consumerId, docs, ids)
        && NoneClaimable(old(core.collection.records), core.collection.records, consumerId, call.now)
      ensures found.Some? ==>
        && ClaimedBy(old(core.collection.records), core.collection.records, consumerId, call.now, resetTimeout, id)
        && FoundDocs(core.collection.records, consumerId, docs + [doc], ids + [id])
        && found.value == Unwrap(doc, deserialize)
    {
      ghost var before := core.collection.records;
      var queueMessage;
      queueMessage, id := FetchOne(consumerId, call);
      LeaseOnlyKeepsFound(before, core.collection.records, consumerId, docs, ids);
      doc := [];
      if queueMessage.None? {
        return None, doc, id;
      }
      doc := queueMessage.value;
      FoundDocsSnoc(core.collection.records, consumerId, docs + [doc], ids + [id]);
      var messageContainer := UnwrapFound(queueMessage.value);
      found := Some(messageContainer);
    }

    /** remove(packet): ack of { id: packet.getId() }. */
    method Remove(packet: MessageContainer<B>) returns (r: Result<()>)
      modifies core.collection
      ensures core.collection.indexes == old(core.collection.indexes)
      ensures packet.id.Oid? ==>
        r == Ok(()) && core.collection.records == old(core.collection.records) - {packet.id.id}
      ensures packet.id.Null? ==>
        r == Err(NullPointer) && core.collection.records == old(core.collection.records)
      ensures !packet.id.Oid? && !packet.id.Null? ==>
        r == Err(IllegalArgument(ID_MESSAGE)) && core.collection.records == old(core.collection.records)
    {
      var query := Bson.Put([], FIELD_ID, packet.id);
      r := core.Ack(Some(query));
    }

    /** reset(event): requeue of the serialised message with source, destination and the
        container's id appended; requeue(message) means due now, priority 0. */
    method Reset(event: MessageContainer<B>, now: int) returns (r: Result<()>)
      modifies core.collection
      ensures core.collection.indexes == old(core.collection.indexes)
      ensures event.id.Oid? ==>
        && r == Ok(())
        && core.collection.records == old(core.collection.records)[event.id.id :=
             Waiting(Bson.Remove(ResetDocument(serialize(event.message), event.message, event.id), FIELD_ID), now, 0, now)]
      ensures event.id.Null? ==>
        r == Err(NullPointer) && core.collection.records == old(core.collection.records)
      ensures !event.id.Oid? && !event.id.Null? ==>
        r == Err(IllegalArgument(ID_MESSAGE)) && core.collection.records == old(core.collection.records)
    {
      var message := event.message;
      var queueMessage := serialize(message);
      queueMessage := Bson.Put(queueMessage, FIELD_SOURCE, NullableString(message.source));
      queueMessage := Bson.Put(queueMessage, FIELD_DESTINATION, NullableString(message.destination));
      queueMessage := Bson.Put(queueMessage, FIELD_ID, event.id);
      r := core.Requeue(Some(queueMessage), Some(now), Num(0), now);
    }
  }

  /** One get() of find() at time `now` that handed out `id`: the abandoned leases were
      released, then the least eligible record addressed to the consumer was leased until
      `resetTimeout` seconds after now. */
  predicate ClaimedBy(before: Records, after: Records, consumerId: string, now: int, resetTimeout: int,
                      id: ObjectId) {
    var reset := ResetAbandoned(before, now);
    && IsLeastEligible(reset, FindQuery(consumerId), now, id)
    && after == reset[id := Claim(reset[id], now + resetTimeout * 1000)]
  }

  /** One get() of find() that came back null: the abandoned leases were released and no
      record is eligible for the consumer. */
  predicate NoneClaimable(before: Records, after: Records, consumerId: string, now: int) {
    var reset := ResetAbandoned(before, now);
    && after == reset
    && forall j :: j in reset ==> !Eligible(FindQuery(consumerId), now, reset[j])
  }

  /** The collection before and after each get() of find(): the i-th get() at calls[i]
      handed out ids[i]. */
  predicate ClaimRun(states: seq<Records>, consumerId: string, calls: seq<GetCall>, resetTimeout: int,
                     ids: seq<ObjectId>) {
    && |ids| < |states| && |ids| <= |calls|
    && forall i :: 0 <= i < |ids| ==>
         ClaimedBy(states[i], states[i + 1], consumerId, calls[i].now, resetTimeout, ids[i])
  }

  /** One more get() that handed out a record. */
  lemma ClaimRunSnoc(states: seq<Records>, consumerId: string, calls: seq<GetCall>, resetTimeout: int,
                     ids: seq<ObjectId>, next: Records, id: ObjectId)
    requires ClaimRun(states, consumerId, calls, resetTimeout, ids)
    requires |states| == |ids| + 1 && |ids| < |calls|
    requires ClaimedBy(states[|ids|], next, consumerId, calls[|ids|].now, resetTimeout, id)
    ensures ClaimRun(states + [next], consumerId, calls, resetTimeout, ids + [id])
  {
    var states' := states + [next];
    var ids' := ids + [id];
    forall i | 0 <= i < |ids'|
      ensures ClaimedBy(states'[i], states'[i + 1], consumerId, calls[i].now, resetTimeout, ids'[i])
    {
      if i < |ids| {
        assert states'[i] == states[i] && states'[i + 1] == states[i + 1] && ids'[i] == ids[i];
      }
    }
  }

  /** One more get() that came back null leaves the claims as they were. */
  lemma ClaimRunExtend(states: seq<Records>, consumerId: string, calls: seq<GetCall>, resetTimeout: int,
                       ids: seq<ObjectId>, next: Records)
    requires ClaimRun(states, consumerId, calls, resetTimeout, ids)
    ensures ClaimRun(states + [next], consumerId, calls, resetTimeout, ids)
  {
    var states' := states + [next];
    forall i | 0 <= i < |ids|
      ensures ClaimedBy(states'[i], states'[i + 1], consumerId, calls[i].now, resetTimeout, ids[i])
    {
      assert states'[i] == states[i] && states'[i + 1] == states[i + 1];
    }
  }

  /** Each document find() collected is its record's payload with the record's id, and is
      addressed to the consumer. */
  predicate FoundDocs(m: Records, consumerId: string, docs: seq<Document>, ids: seq<ObjectId>) {
    && |ids| == |docs|
    && forall i :: 0 <= i < |docs| ==>
         && ids[i] in m
         && docs[i] == Put(m[ids[i]].payload, FIELD_ID, Oid(ids[i]))
         && Get(docs[i], FIELD_DESTINATION) == Some(Str(consumerId))
  }

  /** Later get() calls change leases only, so the earlier documents stay tied to their
      records. */
  lemma LeaseOnlyKeepsFound(before: Records, after: Records, consumerId: string,
                            docs: seq<Document>, ids: seq<ObjectId>)
    requires LeaseOnlyChange(before, after) && FoundDocs(before, consumerId, docs, ids)
    ensures FoundDocs(after, consumerId, docs, ids)
  {
    forall i | 0 <= i < |docs|
      ensures ids[i] in after && docs[i] == Put(after[ids[i]].payload, FIELD_ID, Oid(ids[i]))
    {
      var k := ids[i];
      assert after[k].(running := before[k].running, resetTimestamp := before[k].resetTimestamp) == before[k];
    }
  }

  lemma FoundDocsSnoc(m: Records, consumerId: string, docs: seq<Document>, ids: seq<ObjectId>)
    requires |docs| == |ids| > 0
    requires FoundDocs(m, consumerId, docs[..|docs| - 1], ids[..|ids| - 1])
    requires ids[|ids| - 1] in m
    requires docs[|docs| - 1] == Put(m[ids[|ids| - 1]].payload, FIELD_ID, Oid(ids[|ids| - 1]))
    requires Get(docs[|docs| - 1], FIELD_DESTINATION) == Some(Str(consumerId))
    ensures FoundDocs(m, consumerId, docs, ids)
  {
    var n := |docs| - 1;
    forall i | 0 <= i < n
      ensures ids[i] in m && docs[i] == Put(m[ids[i]].payload, FIELD_ID, Oid(ids[i]))
      ensures Get(docs[i], FIELD_DESTINATION) == Some(Str(consumerId))
    {
      assert docs[..n][i] == docs[i] && ids[..n][i] == ids[i];
    }
  }

  /** Each document unwraps to the container at the same position. */
  ghost predicate UnwrapsTo<B>(docs: seq<Document>, deserialize: Document -> RoutedMessage<B>,
                         containers: seq<MessageContainer<B>>) {
    && |containers| == |docs|
    && forall i :: 0 <= i < |docs| ==> Unwrap(docs[i], deserialize) == Ok(containers[i])
  }

  lemma UnwrapsToSnoc<B>(docs: seq<Document>, deserialize: Document -> RoutedMessage<B>,
                         containers: seq<MessageContainer<B>>, c: MessageContainer<B>)
    requires |docs| > 0 && UnwrapsTo(docs[..|docs| - 1], deserialize, containers)
    requires Unwrap(docs[|docs| - 1], deserialize) == Ok(c)
    ensures UnwrapsTo(docs, deserialize, containers + [c])
  {
    var n := |docs| - 1;
    forall i | 0 <= i < n ensures Unwrap(docs[i], deserialize) == Ok((containers + [c])[i]) {
      assert docs[..n][i] == docs[i];
    }
  }

  /** The containers made from found documents carry the records' ids and are addressed to
      the consumer. */
  lemma FoundDocsUnwrapped<B>(m: Records, consumerId: string, docs: seq<Document>, ids: seq<ObjectId>,
                              containers: seq<MessageContainer<B>>, deserialize: Document -> RoutedMessage<B>)
    requires FoundDocs(m, consumerId, docs, ids) && |containers| == |docs|
    requires UnwrapsTo(docs, deserialize, containers)
    ensures forall i :: 0 <= i < |docs| ==>
      containers[i].id == Oid(ids[i]) && containers[i].message.destination == Some(consumerId)
  {
    forall i | 0 <= i < |docs|
      ensures containers[i].id == Oid(ids[i]) && containers[i].message.destination == Some(consumerId)
    {
      assert Get(docs[i], FIELD_ID) == Some(Oid(ids[i]));
      assert NullableString(containers[i].message.destination) == Str(consumerId);
    }
  }
}
