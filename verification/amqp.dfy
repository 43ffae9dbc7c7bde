/**
  What the service sees of the RabbitMQ client library (amqp091-go).

  The library is not modelled; each of its calls is recorded in a log, and
  its answer (nil or an error) is an input chosen by the caller. A `Session`
  is the library-side state of one consumer: whether its connection and its
  channel are open, and the calls issued so far, in order.
 */
module Amqp {
  import opened Errors

  newtype byte = x: int | 0 <= x < 256

  /** One message handed to the consumer; only its body is used. */
  datatype Delivery = Delivery(body: seq<byte>)

  /** Arguments of `Channel.QueueDeclare`; the argument table is always nil. */
  datatype DeclareArgs = DeclareArgs(
    name: string,
    durable: bool,
    autoDelete: bool,
    exclusive: bool,
    noWait: bool)

  /** Arguments of `Channel.Consume`; the argument table is always nil. */
  datatype ConsumeArgs = ConsumeArgs(
    queue: string,
    consumerTag: string,
    autoAck: bool,
    exclusive: bool,
    noLocal: bool,
    noWait: bool)

  datatype Call =
    | Dial(url: string)
    | OpenChannel
    | QueueDeclare(declare: DeclareArgs)
    | Consume(consume: ConsumeArgs)
    | CloseChannel
    | CloseConnection

  datatype Session = Session(connOpen: bool, chanOpen: bool, calls: seq<Call>)

  /** Before `amqp.Dial`: nothing open, nothing asked. */
  const Fresh := Session(false, false, [])

  /** A channel lives inside its connection. */
  predicate WellFormed(s: Session)
  {
    s.chanOpen ==> s.connOpen
  }

  predicate NothingOpen(s: Session)
  {
    !s.connOpen && !s.chanOpen
  }

  /**
    The error amqp091-go returns at once for a call on a channel that is no
    longer open (`amqp.ErrClosed`, code 504); nothing reaches the broker.
   */
  const ErrClosed := Cause("Exception (504) Reason: \"channel/connection is not open\"")

  /**
    What a call on the channel gets back: the broker's answer `reply` while
    the channel is open, `ErrClosed` once it is not.
   */
  function Answer(chanOpen: bool, reply: Outcome): Outcome
  {
    if chanOpen then reply else Fail(ErrClosed)
  }

  /**
    Issues `call` and applies the library's answer `reply`. A close always
    takes effect (the service ignores what close returns), and closing the
    connection also closes its channel. The broker refuses a declaration or
    a subscription with an AMQP 0-9-1 channel exception, which closes the
    channel; a call on a closed channel leaves it closed.
   */
  function Perform(s: Session, call: Call, reply: Outcome): (r: Session)
    ensures r.calls == s.calls + [call]
    ensures WellFormed(s) ==> WellFormed(r)
    ensures call.QueueDeclare? || call.Consume? ==>
      r.connOpen == s.connOpen && (r.chanOpen <==> Answer(s.chanOpen, reply).Pass?)
    ensures call.CloseConnection? ==> NothingOpen(r)
    ensures call.CloseChannel? ==> !r.chanOpen && r.connOpen == s.connOpen
    ensures call.Dial? ==> r.connOpen == (s.connOpen || reply.Pass?) && r.chanOpen == s.chanOpen
    ensures call.OpenChannel? ==> r.chanOpen == (s.chanOpen || (reply.Pass? && s.connOpen)) && r.connOpen == s.connOpen
  {
    var calls := s.calls + [call];
    match call
    case Dial(_) => Session(s.connOpen || reply.Pass?, s.chanOpen, calls)
    case OpenChannel => Session(s.connOpen, s.chanOpen || (reply.Pass? && s.connOpen), calls)
    case QueueDeclare(_) => Session(s.connOpen, s.chanOpen && reply.Pass?, calls)
    case Consume(_) => Session(s.connOpen, s.chanOpen && reply.Pass?, calls)
    case CloseChannel => Session(s.connOpen, false, calls)
    case CloseConnection => Session(false, false, calls)
  }
}
