/** QueueEngine: the packet holder between the queue box, its consumer threads and the
    queue behaviour. It keeps one consumer thread per consumer id and hands every queue
    operation on to the behaviour unchanged. */
module Engine {
  import opened Results
  import Bson
  import opened Store
  import opened QueueStorage
  import opened Props
  import opened Messages
  import opened Behave
  import Dispatch

  function DuplicateMessage(consumerId: string): string {
    "consumer with id \"" + consumerId + "\" already registered"
  }

  class QueueEngine<B> {
    const properties: PropertiesBox
    const behave: RoutedQueueBehave<B>
    var threads: map<string, Dispatch.QueueConsumerThread<B>>

    constructor (properties: PropertiesBox, behave: RoutedQueueBehave<B>)
      ensures this.properties == properties && this.behave == behave && threads == map[]
    {
      this.properties := properties;
      this.behave := behave;
      threads := map[];
    }

    /** queue(event): put. */
    method Queue(event: MessageContainer<B>, now: int) returns (ghost id: Bson.ObjectId)
      modifies behave.core.collection
      ensures behave.core.collection.indexes == old(behave.core.collection.indexes)
      ensures id !in old(behave.core.collection.records)
      ensures behave.core.collection.records ==
        old(behave.core.collection.records)[id := Waiting(behave.serialize(event.message), now, event.priority, now)]
    {
      id := behave.Put(event, now);
    }

    /** getFetchLimit(): the behaviour's fetch limit. */
    method GetFetchLimit() returns (n: int)
      ensures n == behave.fetchLimit
    {
      n := behave.GetFetchLimit();
    }

    /** fetch(consumer): find. */
    method Fetch(consumer: QueueConsumer<B>, calls: seq<GetCall>)
      returns (r: Result<seq<MessageContainer<B>>>, gets: nat,
               ghost docs: seq<Bson.Document>, ghost ids: seq<Bson.ObjectId>, ghost states: seq<Records>)
      requires behave.fetchLimit <= |calls|
      requires forall i :: 0 <= i < |calls| ==> Expires(calls[i])
      modifies behave.core.collection
      ensures behave.core.collection.indexes == old(behave.core.collection.indexes)
      ensures LeaseOnlyChange(old(behave.core.collection.records), behave.core.collection.records)
      ensures gets <= (if behave.fetchLimit > 0 then behave.fetchLimit else 0)
      ensures |ids| == |docs| <= gets
      ensures |states| == gets + 1 && states[0] == old(behave.core.collection.records)
      ensures states[gets] == behave.core.collection.records
      ensures ClaimRun(states, consumer.consumerId, calls, behave.resetTimeout, ids)
      ensures FoundDocs(behave.core.collection.records, consumer.consumerId, docs, ids)
      ensures r.Ok? ==> UnwrapsTo(docs, behave.deserialize, r.value)
      ensures r.Ok? ==> forall i :: 0 <= i < |docs| ==>
        r.value[i].id == Bson.Oid(ids[i]) && r.value[i].message.destination == Some(consumer.consumerId)
      ensures r.Err? ==>
        && r == Err(ClassCast) && 0 < |docs| == gets
        && Unwrap(docs[|docs| - 1], behave.deserialize).Err?
      ensures r.Ok? && gets == |docs| ==> gets == (if behave.fetchLimit > 0 then behave.fetchLimit else 0)
      ensures r.Ok? && |docs| < gets ==>
        gets == |docs| + 1 &&
        NoneClaimable(states[gets - 1], states[gets], consumer.consumerId, calls[gets - 1].now)
    {
      r, docs, ids, gets, states := behave.Find(consumer, calls);
    }

    /** ack(packet): remove. */
    method Ack(packet: MessageContainer<B>) returns (r: Result<()>)
      modifies behave.core.collection
      ensures behave.core.collection.indexes == old(behave.core.collection.indexes)
      ensures packet.id.Oid? ==>
        r == Ok(()) && behave.core.collection.records == old(behave.core.collection.records) - {packet.id.id}
      ensures packet.id.Null? ==>
        r == Err(NullPointer) && behave.core.collection.records == old(behave.core.collection.records)
      ensures !packet.id.Oid? && !packet.id.Null? ==>
        r == Err(IllegalArgument(ID_MESSAGE)) && behave.core.collection.records == old(behave.core.collection.records)
    {
      r := behave.Remove(packet);
    }

    /** reset(packet): the behaviour's reset. */
    method Reset(packet: MessageContainer<B>, now: int) returns (r: Result<()>)
      modifies behave.core.collection
      ensures behave.core.collection.indexes == old(behave.core.collection.indexes)
      ensures packet.id.Oid? ==>
        && r == Ok(())
        && behave.core.collection.records == old(behave.core.collection.records)[packet.id.id :=
             Waiting(Bson.Remove(ResetDocument(behave.serialize(packet.message), packet.message, packet.id), FIELD_ID),
                     now, 0, now)]
      ensures packet.id.Null? ==>
        r == Err(NullPointer) && behave.core.collection.records == old(behave.core.collection.records)
      ensures !packet.id.Oid? && !packet.id.Null? ==>
        r == Err(IllegalArgument(ID_MESSAGE)) && behave.core.collection.records == old(behave.core.collection.records)
    {
      r := behave.Reset(packet, now);
    }

    /** registerConsumer(consumer): a second consumer with the same id is refused; a new
        one gets a started thread of its own. */
    method RegisterConsumer(consumer: QueueConsumer<B>) returns (r: Result<()>)
      modifies this
      ensures consumer.consumerId in old(threads) ==>
        r == Err(IllegalState(DuplicateMessage(consumer.consumerId))) && threads == old(threads)
      ensures consumer.consumerId !in old(threads) ==> consumer.consumerId in threads
      ensures consumer.consumerId !in old(threads) ==>
        var t := threads[consumer.consumerId];
        && r == Ok(())
        && threads == old(threads)[consumer.consumerId := t]
        && fresh(t) && t.consumer == consumer && t.running
        && t.permits == behave.fetchLimit && t.fetchDelayMills == Dispatch.FetchDelay(properties)
        && t.events == [Dispatch.FetchLaunched]
    {
      if consumer.consumerId in threads {
        return Err(IllegalState(DuplicateMessage(consumer.consumerId)));
      }
      var fetchLimit := GetFetchLimit();
      var consumerThread := new Dispatch.QueueConsumerThread(properties, consumer, fetchLimit);
      threads := threads[consumer.consumerId := consumerThread];
      consumerThread.Start();
      r := Ok(());
    }

    /** shutdown(): stop every registered thread. */
    method Shutdown()
      modifies threads.Values
      ensures forall id :: id in threads ==> !threads[id].running
      ensures forall t :: t in threads.Values ==> t.permits == old(t.permits) && t.events == old(t.events)
    {
      var rest := threads.Keys;
      while rest != {}
        invariant rest <= threads.Keys
        invariant forall id :: id in threads && id !in rest ==> !threads[id].running
        invariant forall t :: t in threads.Values ==> t.permits == old(t.permits) && t.events == old(t.events)
        decreases |rest|
      {
        var id :| id in rest;
        threads[id].Stop();
        rest := rest - {id};
      }
    }
  }
}
