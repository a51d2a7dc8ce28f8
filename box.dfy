/** QueueBox: the application's entry point. It is configured with a behaviour and an
    executor, started once, and then takes subscriptions and messages, which it hands to
    its queue engine. Tasks submitted to the executor are run to completion at once. */
module Box {
  import opened Results
  import Bson
  import opened QueueStorage
  import opened Props
  import opened Messages
  import opened Behave
  import opened Engine

  const NOT_STARTED_MESSAGE: string := "QueueBox not started"

  /** The consumer subscribe(destination, consumer) builds: it serves `destination` and
      hands each container's message to `accept`. */
  function ForwardingConsumer<B>(destination: string, accept: RoutedMessage<B> -> bool): (c: QueueConsumer<B>)
    ensures c.consumerId == destination
  {
    QueueConsumer(destination, (packet: MessageContainer<B>) => accept(packet.message))
  }

  /** The forwarding consumer's handler succeeds exactly when `accept` does on the message. */
  lemma ForwardingConsumerForwards<B>(destination: string, accept: RoutedMessage<B> -> bool,
                                      packet: MessageContainer<B>)
    ensures ForwardingConsumer(destination, accept).onPacket(packet) == accept(packet.message)
  {
  }

  class QueueBox<B> {
    const properties: PropertiesBox
    var behave: RoutedQueueBehave?<B>
    var hasExecutor: bool
    var engine: QueueEngine?<B>
    var started: bool

    /** A started box has its engine. */
    ghost predicate Valid()
      reads this
    {
      started ==> engine != null
    }

    constructor (properties: PropertiesBox)
      ensures this.properties == properties
      ensures behave == null && !hasExecutor && engine == null && !started
      ensures Valid()
    {
      this.properties := properties;
      behave := null;
      hasExecutor := false;
      engine := null;
      started := false;
    }

    /** withExecutorService(executor): `present` says whether the executor is non-null. */
    method WithExecutorService(present: bool)
      modifies this
      ensures hasExecutor == present
      ensures behave == old(behave) && engine == old(engine) && started == old(started)
    {
      hasExecutor := present;
    }

    /** withQueueBehave(behave): the field is set first, so a null behaviour is stored and
        then fails when its context is set. */
    method WithQueueBehave(queueBehave: RoutedQueueBehave?<B>) returns (r: Result<()>)
      modifies this
      ensures behave == queueBehave
      ensures r == (if queueBehave == null then Err(NullPointer) else Ok(()))
      ensures hasExecutor == old(hasExecutor) && engine == old(engine) && started == old(started)
    {
      behave := queueBehave;
      if queueBehave == null {
        return Err(NullPointer);
      }
      r := Ok(());
    }

    /** start(): both the behaviour and the executor are required; a new engine with no
        consumers is made and the box is marked started. */
    method Start() returns (r: Result<()>)
      modifies this
      ensures behave == old(behave) && hasExecutor == old(hasExecutor)
      ensures (old(behave) == null || !old(hasExecutor)) ==>
        r == Err(NullPointer) && engine == old(engine) && started == old(started)
      ensures (old(behave) != null && old(hasExecutor)) ==>
        && r == Ok(()) && started && engine != null && fresh(engine)
        && engine.properties == properties && engine.behave == behave && engine.threads == map[]
      ensures old(Valid()) ==> Valid()
    {
      if behave == null || !hasExecutor {
        return Err(NullPointer);
      }
      engine := new QueueEngine(properties, behave);
      started := true;
      r := Ok(());
    }

    /** stop(): shut the engine down; before start() there is no engine. The box stays
        marked as started. */
    method Stop() returns (r: Result<()>)
      modifies if engine != null then engine.threads.Values else {}
      ensures old(engine) == null ==> r == Err(NullPointer)
      ensures engine != null ==>
        && r == Ok(())
        && (forall id :: id in engine.threads ==> !engine.threads[id].running)
        && (forall t :: t in engine.threads.Values ==> t.permits == old(t.permits) && t.events == old(t.events))
    {
      if engine == null {
        return Err(NullPointer);
      }
      engine.Shutdown();
      r := Ok(());
    }

    /** subscribe(consumer): refused before start(); afterwards the registration task is
        submitted, and a duplicate registration fails inside that task, unseen by the caller. */
    method Subscribe(consumer: QueueConsumer<B>) returns (r: Result<()>)
      requires Valid()
      modifies if engine != null then {engine} else {}
      ensures Valid()
      ensures !started ==> r == Err(IllegalState(NOT_STARTED_MESSAGE))
      ensures started ==> r == Ok(())
      ensures started ==> consumer.consumerId in engine.threads
      ensures started && consumer.consumerId in old(engine.threads) ==> engine.threads == old(engine.threads)
      ensures started && consumer.consumerId !in old(engine.threads) ==>
        var t := engine.threads[consumer.consumerId];
        && engine.threads == old(engine.threads)[consumer.consumerId := t]
        && fresh(t) && t.consumer == consumer && t.running
        && t.permits == engine.behave.fetchLimit
        && t.events == [Dispatch.FetchLaunched]
    {
      if !started {
        return Err(IllegalState(NOT_STARTED_MESSAGE));
      }
      var registered := engine.RegisterConsumer(consumer);
      r := Ok(());
    }

    /** subscribe(destination, consumer): subscribe a consumer that forwards each message. */
    method SubscribeTo(destination: string, accept: RoutedMessage<B> -> bool) returns (r: Result<()>)
      requires Valid()
      modifies if engine != null then {engine} else {}
      ensures Valid()
      ensures !started ==> r == Err(IllegalState(NOT_STARTED_MESSAGE))
      ensures started ==> r == Ok(()) && destination in engine.threads
      ensures started && destination in old(engine.threads) ==> engine.threads == old(engine.threads)
      ensures started && destination !in old(engine.threads) ==>
        var t := engine.threads[destination];
        && engine.threads == old(engine.threads)[destination := t]
        && fresh(t) && t.running
        && t.permits == engine.behave.fetchLimit
        && t.events == [Dispatch.FetchLaunched]
        && t.consumer.consumerId == destination
        && forall packet :: t.consumer.onPacket(packet) == accept(packet.message)
    {
      r := Subscribe(ForwardingConsumer(destination, accept));
      forall packet: MessageContainer<B> | started && destination !in old(engine.threads)
        ensures engine.threads[destination].consumer.onPacket(packet) == accept(packet.message)
      {
        ForwardingConsumerForwards(destination, accept, packet);
      }
    }

    /** queue(message): refused before start(); afterwards the message is sent, due now,
        with the default priority, and the message itself is the task's result. */
    method Queue(message: RoutedMessage<B>, now: int) returns (r: Result<RoutedMessage<B>>, ghost id: Bson.ObjectId)
      requires Valid()
      modifies if engine != null then {engine.behave.core.collection} else {}
      ensures !started ==> r == Err(IllegalState(NOT_STARTED_MESSAGE))
      ensures started ==>
        && r == Ok(message)
        && id !in old(engine.behave.core.collection.records)
        && engine.behave.core.collection.records == old(engine.behave.core.collection.records)[id :=
             Waiting(engine.behave.serialize(message), now, PRIORITY_DEFAULT, now)]
    {
      if !started {
        return Err(IllegalState(NOT_STARTED_MESSAGE)), 0;
      }
      id := engine.Queue(NewContainer(message), now);
      r := Ok(message);
    }

    /** queue(message, priority): as queue(message), with the given priority. */
    method QueueWithPriority(message: RoutedMessage<B>, priority: int, now: int)
      returns (r: Result<RoutedMessage<B>>, ghost id: Bson.ObjectId)
      requires Valid()
      modifies if engine != null then {engine.behave.core.collection} else {}
      ensures !started ==> r == Err(IllegalState(NOT_STARTED_MESSAGE))
      ensures started ==>
        && r == Ok(message)
        && id !in old(engine.behave.core.collection.records)
        && engine.behave.core.collection.records == old(engine.behave.core.collection.records)[id :=
             Waiting(engine.behave.serialize(message), now, priority, now)]
    {
      if !started {
        return Err(IllegalState(NOT_STARTED_MESSAGE)), 0;
      }
      var container := NewContainer(message).(priority := priority);
      id := engine.Queue(container, now);
      r := Ok(message);
    }
  }
}
