/**
  The RabbitMQ consumer of internal/rabbitmq/consumer.go: one connection and
  one channel, the queue declaration and the subscription it performs, and
  the order in which it releases its resources.
 */
module RabbitConsumer {
  import opened Errors
  import opened Amqp

  datatype Conn = Conn(url: string)
  datatype Chan = Chan

  /** Go's `Consumer`: two pointers, either of which may be nil. */
  datatype Consumer = Consumer(conn: Option<Conn>, channel: Option<Chan>)

  /** The subscription stream `Consume` hands back for a queue. */
  datatype Stream = Stream(queue: string)

  datatype Opened = Opened(result: Result<Consumer>, session: Session)
  datatype Declared = Declared(outcome: Outcome, session: Session)
  datatype Subscribed = Subscribed(result: Result<Stream>, session: Session)

  /** A consumer whose pointers are both set and whose resources are both open. */
  predicate Live(c: Consumer, s: Session)
  {
    c.conn.Some? && c.channel.Some? && s.connOpen && s.chanOpen
  }

  /** The declaration `DeclareQueue` asks for. */
  function DeclareRequest(queueName: string): DeclareArgs
  {
    DeclareArgs(queueName, true, false, false, false)
  }

  /** The subscription `ConsumeMessages` asks for: empty tag, automatic acknowledgement. */
  function ConsumeRequest(queueName: string): ConsumeArgs
  {
    ConsumeArgs(queueName, "", true, false, false, false)
  }

  /** A durable queue that outlives its consumers and may be shared by several. */
  predicate Durable(a: DeclareArgs)
  {
    a.durable && !a.autoDelete && !a.exclusive && !a.noWait
  }

  /** Deliveries are settled on receipt, and other consumers may share the queue. */
  predicate AckOnReceipt(a: ConsumeArgs)
  {
    a.autoAck && !a.exclusive && !a.noLocal && !a.noWait
  }

  /**
    `NewConsumer(url)`, given what `amqp.Dial` and `conn.Channel` answer.
    When the channel cannot be opened, the connection already dialled is
    closed before the error is returned.
   */
  function NewConsumer(url: string, dialReply: Outcome, channelReply: Outcome): (r: Opened)
    ensures WellFormed(r.session)
    ensures r.result.Err? ==> NothingOpen(r.session)
    ensures r.result.Ok? <==> dialReply.Pass? && channelReply.Pass?
    ensures dialReply.Fail? ==>
      r.result == Err(ConnectFailed(dialReply.error)) && r.session.calls == [Dial(url)]
    ensures dialReply.Pass? && channelReply.Fail? ==>
      && r.result == Err(ChannelFailed(channelReply.error))
      && r.session.calls == [Dial(url), OpenChannel, CloseConnection]
    ensures r.result.Ok? ==>
      && Live(r.result.value, r.session)
      && r.result.value.conn == Some(Conn(url))
      && r.session.calls == [Dial(url), OpenChannel]
  {
    var s1 := Perform(Fresh, Dial(url), dialReply);
    if dialReply.Fail? then
      Opened(Err(ConnectFailed(dialReply.error)), s1)
    else
      var s2 := Perform(s1, OpenChannel, channelReply);
      if channelReply.Fail? then
        Opened(Err(ChannelFailed(channelReply.error)), Perform(s2, CloseConnection, Pass))
      else
        Opened(Ok(Consumer(Some(Conn(url)), Some(Chan))), s2)
  }

  /**
    `c.DeclareQueue(queueName)`, given what the broker answers `QueueDeclare`
    while the channel is open. The channel must be set: Go would dereference
    a nil pointer otherwise. A refusal closes the channel.
   */
  function DeclareQueue(c: Consumer, queueName: string, reply: Outcome, s: Session): (r: Declared)
    requires c.channel.Some?
    ensures r.session.calls == s.calls + [QueueDeclare(DeclareRequest(queueName))]
    ensures Durable(DeclareRequest(queueName)) && DeclareRequest(queueName).name == queueName
    ensures r.outcome.Pass? <==> s.chanOpen && reply.Pass?
    ensures s.chanOpen && reply.Fail? ==> r.outcome == Fail(DeclareFailed(queueName, reply.error))
    ensures !s.chanOpen ==> r.outcome == Fail(DeclareFailed(queueName, ErrClosed))
    ensures r.session.connOpen == s.connOpen && (r.session.chanOpen <==> r.outcome.Pass?)
  {
    var s' := Perform(s, QueueDeclare(DeclareRequest(queueName)), reply);
    match Answer(s.chanOpen, reply)
    case Fail(e) => Declared(Fail(DeclareFailed(queueName, e)), s')
    case Pass => Declared(Pass, s')
  }

  /**
    `c.ConsumeMessages(queueName)`, given what the broker answers `Consume`
    while the channel is open. On failure there is no stream, and the
    channel is closed.
   */
  function ConsumeMessages(c: Consumer, queueName: string, reply: Outcome, s: Session): (r: Subscribed)
    requires c.channel.Some?
    ensures r.session.calls == s.calls + [Consume(ConsumeRequest(queueName))]
    ensures AckOnReceipt(ConsumeRequest(queueName)) && ConsumeRequest(queueName).queue == queueName
    ensures r.result.Ok? <==> s.chanOpen && reply.Pass?
    ensures r.result.Ok? ==> r.result.value == Stream(queueName)
    ensures s.chanOpen && reply.Fail? ==> r.result == Err(ConsumeFailed(reply.error))
    ensures !s.chanOpen ==> r.result == Err(ConsumeFailed(ErrClosed))
    ensures r.session.connOpen == s.connOpen && (r.session.chanOpen <==> r.result.Ok?)
  {
    var s' := Perform(s, Consume(ConsumeRequest(queueName)), reply);
    match Answer(s.chanOpen, reply)
    case Fail(e) => Subscribed(Err(ConsumeFailed(e)), s')
    case Pass => Subscribed(Ok(Stream(queueName)), s')
  }

  /** The library calls `Close` issues: the channel's, then the connection's, each only if set. */
  function CloseCalls(c: Consumer): seq<Call>
  {
    (if c.channel.Some? then [CloseChannel] else []) + (if c.conn.Some? then [CloseConnection] else [])
  }

  /**
    `c.Close()`. The pointers are not cleared, so calling it again issues the
    same library calls again.
   */
  function Close(c: Consumer, s: Session): (r: Session)
    ensures WellFormed(s) ==> WellFormed(r)
    ensures c.channel.Some? && c.conn.Some? ==> r.calls == s.calls + [CloseChannel, CloseConnection]
    ensures c.channel.Some? && c.conn.None? ==> r.calls == s.calls + [CloseChannel]
    ensures c.channel.None? && c.conn.Some? ==> r.calls == s.calls + [CloseConnection]
    ensures c.channel.None? && c.conn.None? ==> r == s
    ensures c.channel.Some? ==> !r.chanOpen
    ensures c.conn.Some? ==> NothingOpen(r)
    ensures c.conn.None? ==> r.connOpen == s.connOpen
    ensures r.calls == s.calls + CloseCalls(c)
  {
    var s1 := if c.channel.Some? then Perform(s, CloseChannel, Pass) else s;
    if c.conn.Some? then Perform(s1, CloseConnection, Pass) else s1
  }

  /** Whatever `NewConsumer` produced, closing it leaves no resource open. */
  lemma OpenThenClose(url: string, dialReply: Outcome, channelReply: Outcome)
    ensures var o := NewConsumer(url, dialReply, channelReply);
      o.result.Ok? ==> NothingOpen(Close(o.result.value, o.session))
  {
  }

  /**
    Closing twice is harmless for the resources but not silent: the second
    call asks the library to close both again.
   */
  lemma CloseTwice(c: Consumer, s: Session)
    ensures var once := Close(c, s);
      var twice := Close(c, once);
      && twice.connOpen == once.connOpen && twice.chanOpen == once.chanOpen
      && twice.calls == s.calls + CloseCalls(c) + CloseCalls(c)
  {
  }
}
