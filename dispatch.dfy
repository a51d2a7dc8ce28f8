/** QueueConsumerThread, as a sequential machine: a running flag gating each fetch, the
    back-off after an empty batch, and the drain of a non-empty batch through a semaphore
    and an executor. What the thread asks of the queue (fetches, resets) and hands to the
    consumer is recorded as a trace of events; the outcome of each acquire-and-submit is an
    input. */
module Dispatch {
  import opened Results
  import opened JavaInts
  import opened Props
  import opened Messages

  const PROPERTY_FETCH_DELAY_MILLS: string := "queue.fetch.delay.mills"
  const DEFAULT_FETCH_DELAY_MILLS: int := 100

  /** What happened to one packet at semaphore.acquire() and executor.execute(). */
  datatype Attempt =
    | Submitted    // a permit was taken and the executor accepted the task
    | Rejected     // a permit was taken, then RejectedExecutionException
    | Interrupted  // acquire() threw InterruptedException; no permit was taken

  datatype Event<B> =
    | FetchLaunched                                  // runTask started an asynchronous fetch
    | FetchScheduled(delay: nat)                     // the timer will run runTask after delay ms
    | Delivered(packet: MessageContainer<B>, ok: bool) // the consumer's onPacket ran (ok: it returned)
    | Reset(packet: MessageContainer<B>)             // packetHolder.reset(packet)

  /** The fetch delay read in the constructor: Integer.parseInt(getProperty(name)), with
      the default when the property is missing or not a String (getProperty gives null, on
      which parseInt throws NumberFormatException) or does not parse. A negative number
      parses and is kept. */
  function FetchDelay(properties: PropertiesBox): (d: int)
    ensures GetProperty(properties, PROPERTY_FETCH_DELAY_MILLS).None? ==> d == DEFAULT_FETCH_DELAY_MILLS
    ensures IsInt(d)
  {
    match GetProperty(properties, PROPERTY_FETCH_DELAY_MILLS)
    case None => DEFAULT_FETCH_DELAY_MILLS
    case Some(s) => match ParseInt(s) case Some(v) => v case None => DEFAULT_FETCH_DELAY_MILLS
  }

  /** The decimal text of an int sets the fetch delay to it. */
  lemma FetchDelayText(properties: PropertiesBox, n: int)
    requires IsInt(n)
    requires PROPERTY_FETCH_DELAY_MILLS in properties.entries
    requires properties.entries[PROPERTY_FETCH_DELAY_MILLS] == Text(Show(n))
    ensures FetchDelay(properties) == n
  {
    ParseIntShow(n);
  }

  /** Unlike tryGetIntProperty, the fetch delay ignores a Number property. */
  lemma FetchDelayIgnoresNumbers(properties: PropertiesBox, n: int)
    requires PROPERTY_FETCH_DELAY_MILLS in properties.entries
    requires properties.entries[PROPERTY_FETCH_DELAY_MILLS] == Number(n)
    ensures FetchDelay(properties) == DEFAULT_FETCH_DELAY_MILLS
    ensures TryGetIntProperty(properties, PROPERTY_FETCH_DELAY_MILLS, DEFAULT_FETCH_DELAY_MILLS) == ToInt(n)
  {
  }

  /** Nor does it see an object that is not a String, whatever its text. */
  lemma FetchDelayIgnoresOtherObjects(properties: PropertiesBox, n: int)
    requires IsInt(n)
    requires PROPERTY_FETCH_DELAY_MILLS in properties.entries
    requires properties.entries[PROPERTY_FETCH_DELAY_MILLS] == Other(Show(n))
    ensures FetchDelay(properties) == DEFAULT_FETCH_DELAY_MILLS
    ensures TryGetIntProperty(properties, PROPERTY_FETCH_DELAY_MILLS, DEFAULT_FETCH_DELAY_MILLS) == n
  {
    TryGetOther(properties, PROPERTY_FETCH_DELAY_MILLS, n, DEFAULT_FETCH_DELAY_MILLS);
  }

  /** payload(): the batch fetch returned, or an empty one when fetch threw. */
  function Payload<B>(fetched: Result<seq<MessageContainer<B>>>): (batch: seq<MessageContainer<B>>)
    ensures fetched.Err? ==> batch == []
    ensures fetched.Ok? ==> batch == fetched.value
  {
    if fetched.Ok? then fetched.value else []
  }

  /** The events of one packet whose acquire did not block: a rejected or interrupted packet
      is reset; a submitted one is delivered, and reset when the handler threw. */
  function PacketEvents<B>(packet: MessageContainer<B>, attempt: Attempt, consumer: QueueConsumer<B>): (es: seq<Event<B>>)
    ensures |es| > 0
    ensures attempt != Submitted ==> es == [Reset(packet)]
    ensures attempt == Submitted ==>
      && es[0] == Delivered(packet, consumer.onPacket(packet))
      && (Reset(packet) in es <==> !consumer.onPacket(packet))
  {
    if attempt != Submitted then [Reset(packet)]
    else
      var ok := consumer.onPacket(packet);
      [Delivered(packet, ok)] + (if ok then [] else [Reset(packet)])
  }

  /** The outcome of (part of) a drain: the events, the free permits, whether it blocked. */
  datatype Drained<B> = Drained(events: seq<Event<B>>, permits: int, blocked: bool)

  function Then<B>(prefix: seq<Event<B>>, d: Drained<B>): Drained<B> {
    Drained(prefix + d.events, d.permits, d.blocked)
  }

  /** The drain of a batch, front to back. A submission or a rejection needs a permit; with
      none free, acquire() waits for ever (every permit still out was lost to a rejection).
      A handled packet returns its permit; a rejected one does not. */
  function Drain<B>(batch: seq<MessageContainer<B>>, attempts: seq<Attempt>, permits: int,
                    consumer: QueueConsumer<B>): Drained<B>
    requires |batch| <= |attempts|
    decreases |batch|
  {
    if batch == [] then Drained([], permits, false)
    else if attempts[0] != Interrupted && permits < 1 then Drained([], permits, true)
    else
      var left := if attempts[0] == Rejected then permits - 1 else permits;
      Then(PacketEvents(batch[0], attempts[0], consumer), Drain(batch[1..], attempts[1..], left, consumer))
  }

  /** The number of rejections among the attempts. */
  function Rejections(attempts: seq<Attempt>): nat {
    if attempts == [] then 0 else (if attempts[0] == Rejected then 1 else 0) + Rejections(attempts[1..])
  }

  /** The events of a drain that did not block, packet by packet. */
  function Trace<B>(batch: seq<MessageContainer<B>>, attempts: seq<Attempt>, consumer: QueueConsumer<B>): seq<Event<B>>
    requires |batch| <= |attempts|
    decreases |batch|
  {
    if batch == [] then [] else PacketEvents(batch[0], attempts[0], consumer) + Trace(batch[1..], attempts[1..], consumer)
  }

  /** A drain that does not block handles every packet exactly once, in batch order, and
      ends with one permit fewer per rejection. */
  lemma {:induction false} DrainUnblocked<B>(batch: seq<MessageContainer<B>>, attempts: seq<Attempt>, permits: int,
                                             consumer: QueueConsumer<B>)
    requires |batch| <= |attempts|
    requires !Drain(batch, attempts, permits, consumer).blocked
    ensures Drain(batch, attempts, permits, consumer).events == Trace(batch, attempts, consumer)
    ensures Drain(batch, attempts, permits, consumer).permits == permits - Rejections(attempts[..|batch|])
    decreases |batch|
  {
    if batch != [] {
      var left := if attempts[0] == Rejected then permits - 1 else permits;
      DrainUnblocked(batch[1..], attempts[1..], left, consumer);
      assert attempts[..|batch|][1..] == attempts[1..][..|batch| - 1];
    }
  }

  /** With more permits than rejections the drain never blocks. */
  lemma {:induction false} EnoughPermits<B>(batch: seq<MessageContainer<B>>, attempts: seq<Attempt>, permits: int,
                                            consumer: QueueConsumer<B>)
    requires |batch| <= |attempts|
    requires Rejections(attempts[..|batch|]) < permits
    ensures !Drain(batch, attempts, permits, consumer).blocked
    decreases |batch|
  {
    if batch != [] {
      var left := if attempts[0] == Rejected then permits - 1 else permits;
      assert attempts[..|batch|][1..] == attempts[1..][..|batch| - 1];
      EnoughPermits(batch[1..], attempts[1..], left, consumer);
    }
  }

  /** With no permit left, the first packet that is not interrupted blocks the drain. */
  lemma NoPermitsBlocks<B>(batch: seq<MessageContainer<B>>, attempts: seq<Attempt>, permits: int,
                           consumer: QueueConsumer<B>, k: nat)
    requires |batch| <= |attempts| && permits < 1 && k < |batch|
    requires attempts[k] != Interrupted
    requires forall i :: 0 <= i < k ==> attempts[i] == Interrupted
    ensures Drain(batch, attempts, permits, consumer).blocked
    ensures Drain(batch, attempts, permits, consumer).events == Trace(batch[..k], attempts, consumer)
    decreases k
  {
    if k > 0 {
      NoPermitsBlocks(batch[1..], attempts[1..], permits, consumer, k - 1);
      assert batch[..k][1..] == batch[1..][..k - 1];
    }
  }

  class QueueConsumerThread<B> {
    const consumer: QueueConsumer<B>
    const fetchDelayMills: int
    var running: bool
    var permits: int
    var events: seq<Event<B>>

    /** The thread of a consumer: the fetch delay from the properties, as many permits as
        the fetch limit, not yet running. */
    constructor (properties: PropertiesBox, consumer: QueueConsumer<B>, fetchLimit: int)
      ensures this.consumer == consumer && fetchDelayMills == FetchDelay(properties)
      ensures permits == fetchLimit && !running && events == []
    {
      this.consumer := consumer;
      fetchDelayMills := FetchDelay(properties);
      permits := fetchLimit;
      running := false;
      events := [];
    }

    /** start(): set the flag, then run the first runTask. */
    method Start()
      modifies this
      ensures running && permits == old(permits)
      ensures events == old(events) + [FetchLaunched]
    {
      running := true;
      RunTask();
    }

    /** stop(): clear the flag; fetches already under way finish, no new one starts. */
    method Stop()
      modifies this
      ensures !running && permits == old(permits) && events == old(events)
    {
      running := false;
    }

    /** runTask(payload): launch a fetch only while the flag is set. */
    method RunTask()
      modifies this
      ensures running == old(running) && permits == old(permits)
      ensures events == old(events) + (if running then [FetchLaunched] else [])
    {
      if running {
        events := events + [FetchLaunched];
      }
    }

    /** schedule(runTask, delay): Timer.schedule throws IllegalArgumentException for a
        negative delay and queues nothing (`refused`); otherwise the timer will run runTask
        after the delay. */
    method Schedule(delay: int) returns (refused: bool)
      modifies this
      ensures running == old(running) && permits == old(permits)
      ensures refused <==> delay < 0
      ensures events == old(events) + (if delay < 0 then [] else [FetchScheduled(delay)])
    {
      if delay < 0 {
        return true;
      }
      refused := false;
      events := events + [FetchScheduled(delay)];
    }

    /** safePacketHandling(packet): whether the consumer's handler returned normally. */
    method SafePacketHandling(packet: MessageContainer<B>) returns (handled: bool)
      ensures handled <==> consumer.onPacket(packet)
    {
      handled := consumer.onPacket(packet);
    }

    /** One turn of the drain loop: acquire a permit and submit the packet; the task
        delivers it, resets it when the handler threw, and releases the permit. `blocked`:
        there was no permit, and acquire() waits for ever. */
    method HandlePacket(packet: MessageContainer<B>, attempt: Attempt) returns (blocked: bool)
      modifies this
      ensures running == old(running)
      ensures blocked <==> attempt != Interrupted && old(permits) < 1
      ensures blocked ==> permits == old(permits) && events == old(events)
      ensures !blocked ==>
        && permits == (if attempt == Rejected then old(permits) - 1 else old(permits))
        && events == old(events) + PacketEvents(packet, attempt, consumer)
    {
      blocked := false;
      if attempt == Interrupted {
        events := events + [Reset(packet)];
        return;
      }
      if permits < 1 {
        return true;
      }
      permits := permits - 1;
      if attempt == Rejected {
        events := events + [Reset(packet)];
        return;
      }
      var handled := SafePacketHandling(packet);
      events := events + [Delivered(packet, handled)];
      if !handled {
        events := events + [Reset(packet)];
      }
      permits := permits + 1;
    }

    /** HandlePacket on the head of what is left of the batch, in terms of Drain. */
    method DrainTurn(packet: MessageContainer<B>, attempt: Attempt,
                     ghost rest: seq<MessageContainer<B>>, ghost pending: seq<Attempt>)
      returns (stuck: bool)
      requires 0 < |rest| <= |pending| && rest[0] == packet && pending[0] == attempt
      modifies this
      ensures running == old(running)
      ensures stuck ==>
        && Drain(rest, pending, old(permits), consumer) == Drained([], old(permits), true)
        && permits == old(permits) && events == old(events)
      ensures !stuck ==>
        && Drain(rest, pending, old(permits), consumer)
           == Then(PacketEvents(packet, attempt, consumer), Drain(rest[1..], pending[1..], permits, consumer))
        && events == old(events) + PacketEvents(packet, attempt, consumer)
    {
      DrainStep(rest, pending, permits, consumer);
      stuck := HandlePacket(packet, attempt);
    }

    /** onComplete(result): an empty batch schedules the next fetch after the delay; a
        non-empty one is drained and the next fetch follows at once. `attempts[i]` is what
        happens when the i-th packet is acquired and submitted; `blocked` says the thread
        waits for ever in acquire(). The iterator always stands at the head of the batch,
        because every turn removes the packet it just took. `stalled`: Timer.schedule
        refused a negative delay with IllegalArgumentException, which ends the completion
        stage, so no fetch is ever scheduled or launched again. */
    method OnComplete(result: seq<MessageContainer<B>>, attempts: seq<Attempt>)
      returns (ghost blocked: bool, iterations: nat, stalled: bool)
      requires |result| <= |attempts|
      modifies this
      ensures running == old(running)
      ensures stalled <==> |result| == 0 && fetchDelayMills < 0
      ensures |result| == 0 ==>
        && !blocked && permits == old(permits)
        && events == old(events) + (if fetchDelayMills < 0 then [] else [FetchScheduled(fetchDelayMills)])
      ensures |result| > 0 ==>
        var d := Drain(result, attempts, old(permits), consumer);
        && blocked == d.blocked && permits == d.permits
        && events == old(events) + d.events + (if !blocked && running then [FetchLaunched] else [])
      ensures !blocked ==> iterations == |result|
    {
      blocked := false;
      iterations := 0;
      stalled := false;
      if |result| == 0 {
        stalled := Schedule(fetchDelayMills);
        return;
      }
      var rest := result;
      var it := 0;
      ghost var drained: seq<Event<B>> := [];
      while |rest| > 0
        invariant 0 <= iterations <= |result| && rest == result[iterations..] && it == 0
        invariant running == old(running)
        invariant events == old(events) + drained
        invariant Then(drained, Drain(rest, attempts[iterations..], permits, consumer))
               == Drain(result, attempts, old(permits), consumer)
        decreases |rest|
      {
        if it >= |rest| {
          it := 0;
        }
        var packet := rest[it];
        var attempt := attempts[iterations];
        var stuck := DrainTurn(packet, attempt, rest, attempts[iterations..]);
        if stuck {
          blocked := true;
          return;
        }
        assert attempts[iterations..][1..] == attempts[iterations + 1..];
        ThenThen(drained, PacketEvents(packet, attempt, consumer),
                 Drain(rest[1..], attempts[iterations + 1..], permits, consumer));
        drained := drained + PacketEvents(packet, attempt, consumer);
        rest := rest[..it] + rest[it + 1..];
        iterations := iterations + 1;
      }
      RunTask();
    }

    /** The completion of a fetch launched by runTask: payload() turns a fetch that threw
        into an empty batch, and onComplete takes the batch. So a failed fetch, like an empty
        one, only schedules the next fetch after the delay, or stalls the thread when the
        delay is negative; a batch is drained. */
    method FetchCompleted(fetched: Result<seq<MessageContainer<B>>>, attempts: seq<Attempt>)
      returns (ghost blocked: bool, iterations: nat, stalled: bool)
      requires fetched.Ok? ==> |fetched.value| <= |attempts|
      modifies this
      ensures running == old(running)
      ensures stalled <==> (fetched.Err? || fetched.value == []) && fetchDelayMills < 0
      ensures fetched.Err? || fetched.value == [] ==>
        && !blocked && iterations == 0 && permits == old(permits)
        && events == old(events) + (if fetchDelayMills < 0 then [] else [FetchScheduled(fetchDelayMills)])
      ensures fetched.Ok? && fetched.value != [] ==>
        var d := Drain(fetched.value, attempts, old(permits), consumer);
        && blocked == d.blocked && permits == d.permits
        && events == old(events) + d.events + (if !blocked && running then [FetchLaunched] else [])
        && (!blocked ==> iterations == |fetched.value|)
    {
      var batch := Payload(fetched);
      blocked, iterations, stalled := OnComplete(batch, attempts);
    }
  }

  /** One step of the drain, unfolded. */
  lemma DrainStep<B>(batch: seq<MessageContainer<B>>, attempts: seq<Attempt>, permits: int,
                     consumer: QueueConsumer<B>)
    requires 0 < |batch| <= |attempts|
    ensures attempts[0] != Interrupted && permits < 1 ==> Drain(batch, attempts, permits, consumer) == Drained([], permits, true)
    ensures !(attempts[0] != Interrupted && permits < 1) ==>
      Drain(batch, attempts, permits, consumer) ==
        Then(PacketEvents(batch[0], attempts[0], consumer),
             Drain(batch[1..], attempts[1..], if attempts[0] == Rejected then permits - 1 else permits, consumer))
  {
  }

  lemma ThenThen<B>(a: seq<Event<B>>, b: seq<Event<B>>, d: Drained<B>)
    ensures Then(a, Then(b, d)) == Then(a + b, d)
  {
    assert a + (b + d.events) == (a + b) + d.events;
  }
}
