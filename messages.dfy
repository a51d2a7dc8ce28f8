/** The values the queue box passes around: routed messages, the containers that carry
    them through the queue, and consumers. The message type is a parameter: B is the part of
    a message the application defines. */
module Messages {
  import opened Results
  import opened Bson

  const PRIORITY_HIGH: int := 1
  const PRIORITY_NORMAL: int := 4
  const PRIORITY_LOW: int := 10
  /** The priority of a container nobody set one on. */
  const PRIORITY_DEFAULT: int := PRIORITY_NORMAL

  /** A RoutedMessage: the application's content, with nullable source and destination. */
  datatype RoutedMessage<B> = RoutedMessage(body: B, source: Option<string>, destination: Option<string>)

  /** A MessageContainer: the queue id (`Null` until the queue assigns one), the message and
      its priority. */
  datatype MessageContainer<B> = MessageContainer(id: Value, message: RoutedMessage<B>, priority: int)

  /** new MessageContainer<>(message). */
  function NewContainer<B>(message: RoutedMessage<B>): (c: MessageContainer<B>)
    ensures c.message == message && c.id == Null && c.priority == PRIORITY_DEFAULT
  {
    MessageContainer(Null, message, PRIORITY_DEFAULT)
  }

  /** A QueueConsumer: its id (the destination it serves) and its packet handler, which
      either returns normally (true) or throws (false). */
  datatype QueueConsumer<!B> = QueueConsumer(consumerId: string, onPacket: MessageContainer<B> -> bool)
}
