/**
  The dispatch registry of internal/rabbitmq/consumer_manager.go: a map from
  queue name to handler, the start of one loop per registered queue, and the
  loop itself.

  A handler is any value of type `H`; what it answers for each delivery is an
  input of the loop. Go ranges over a map in no fixed order, so the order in
  which queues are started is an input too: any listing of the map's keys.
 */
module ConsumerManager {
  import opened Errors
  import opened Amqp
  import opened RabbitConsumer

  datatype Manager<H> = Manager(consumer: Consumer, handlers: map<string, H>)

  datatype Created<H> = Created(result: Result<Manager<H>>, session: Session)
  datatype Registered<H> = Registered(outcome: Outcome, manager: Manager<H>, session: Session)

  /** The goroutine started for one queue, bound to the handler registered for it. */
  datatype Loop<H> = Loop(queue: string, handler: H)
  datatype Started<H> = Started(outcome: Outcome, loops: seq<Loop<H>>, session: Session)

  /** One call `handler.HandleMessage(body)` made by a loop, and what it returned. */
  datatype Invocation<H> = Invocation(queue: string, handler: H, body: seq<byte>, outcome: Outcome)

  /** `NewConsumerManager(url)`: the consumer's error is passed on as it is. */
  function NewConsumerManager<H>(url: string, dialReply: Outcome, channelReply: Outcome): (r: Created<H>)
    ensures r.result.Ok? <==> dialReply.Pass? && channelReply.Pass?
    ensures dialReply.Fail? ==> r.result == Err(ConnectFailed(dialReply.error))
    ensures dialReply.Pass? && channelReply.Fail? ==> r.result == Err(ChannelFailed(channelReply.error))
    ensures r.result.Err? ==> NothingOpen(r.session)
    ensures r.result.Ok? ==>
      && r.result.value.handlers == map[]
      && Live(r.result.value.consumer, r.session)
  {
    var o := NewConsumer(url, dialReply, channelReply);
    match o.result
    case Err(e) => Created(Err(e), o.session)
    case Ok(c) => Created(Ok(Manager(c, map[])), o.session)
  }

  /**
    `m.RegisterQueue(queueName, handler)`, given what the broker answers the
    declaration while the channel is open. The pair is stored only once the
    queue is declared, replacing any handler the name had.
   */
  function RegisterQueue<H>(m: Manager<H>, queueName: string, handler: H, declareReply: Outcome, s: Session)
    : (r: Registered<H>)
    requires m.consumer.channel.Some?
    ensures r.session.calls == s.calls + [QueueDeclare(DeclareRequest(queueName))]
    ensures r.session.connOpen == s.connOpen && (r.session.chanOpen <==> r.outcome.Pass?)
    ensures r.manager.consumer == m.consumer
    ensures r.outcome.Pass? <==> s.chanOpen && declareReply.Pass?
    ensures s.chanOpen && declareReply.Fail? ==> r.outcome == Fail(DeclareFailed(queueName, declareReply.error))
    ensures !s.chanOpen ==> r.outcome == Fail(DeclareFailed(queueName, ErrClosed))
    ensures r.outcome.Fail? ==> r.manager == m
    ensures r.outcome.Pass? ==>
      && r.manager.handlers.Keys == m.handlers.Keys + {queueName}
      && r.manager.handlers[queueName] == handler
      && (forall q :: q in m.handlers && q != queueName ==> r.manager.handlers[q] == m.handlers[q])
  {
    var d := DeclareQueue(m.consumer, queueName, declareReply, s);
    if d.outcome.Fail? then Registered(d.outcome, m, d.session)
    else Registered(Pass, m.(handlers := m.handlers[queueName := handler]), d.session)
  }

  /** `order` names every key of `keys` exactly once: one order Go's `range` may take. */
  predicate Enumerates(order: seq<string>, keys: set<string>)
  {
    && (forall i, j :: 0 <= i < j < |order| ==> order[i] != order[j])
    && (forall i :: 0 <= i < |order| ==> order[i] in keys)
    && (forall k :: k in keys ==> k in order)
  }

  /** The position of the first queue in `order` whose subscription is refused, or `|order|`. */
  function FirstRefusal(order: seq<string>, subscribe: string -> Outcome): (k: nat)
    ensures k <= |order|
    ensures forall i :: 0 <= i < k ==> subscribe(order[i]).Pass?
    ensures k < |order| ==> subscribe(order[k]).Fail?
    decreases |order|
  {
    if order == [] || subscribe(order[0]).Fail? then 0
    else 1 + FirstRefusal(order[1..], subscribe)
  }

  /** The `Consume` calls issued for `queues`, in order. */
  function SubscribeCalls(queues: seq<string>): (r: seq<Call>)
    ensures |r| == |queues|
    decreases |queues|
  {
    if queues == [] then [] else [Consume(ConsumeRequest(queues[0]))] + SubscribeCalls(queues[1..])
  }

  /** Every subscription asks for acknowledgement on receipt, on the queue it names. */
  lemma {:induction false} SubscribeCallsAt(queues: seq<string>, i: nat)
    requires i < |queues|
    ensures SubscribeCalls(queues)[i] == Consume(ConsumeRequest(queues[i]))
    ensures AckOnReceipt(SubscribeCalls(queues)[i].consume)
    decreases i
  {
    if i > 0 {
      SubscribeCallsAt(queues[1..], i - 1);
    }
  }

  /**
    Where a start over `order` that finds the channel `open` is refused: at
    the first queue the broker refuses while the channel is open, at the
    first queue of all when it is closed, and at `|order|` if nowhere.
   */
  function StartRefusal(order: seq<string>, open: bool, subscribe: string -> Outcome): (k: nat)
    ensures k <= |order|
    ensures forall i :: 0 <= i < k ==> open && subscribe(order[i]).Pass?
    ensures k < |order| ==> Answer(open, subscribe(order[k])).Fail?
  {
    if open then FirstRefusal(order, subscribe) else 0
  }

  /** How many queues a start asks to subscribe: up to and including the refused one. */
  function Attempted(order: seq<string>, open: bool, subscribe: string -> Outcome): (n: nat)
    ensures n <= |order|
  {
    var k := StartRefusal(order, open, subscribe);
    if k < |order| then k + 1 else k
  }

  /**
    The body of `StartListening` over the queues of `order`: subscribe to each
    in turn and start its loop; stop at the first refusal. The loops already
    started are not rolled back, but the refusal closes the channel, and with
    it their streams, so those loops end.
   */
  function StartEach<H>(m: Manager<H>, order: seq<string>, subscribe: string -> Outcome, s: Session)
    : (r: Started<H>)
    requires forall i :: 0 <= i < |order| ==> order[i] in m.handlers
    requires |order| > 0 ==> m.consumer.channel.Some?
    ensures var k := StartRefusal(order, s.chanOpen, subscribe);
      && |r.loops| == k
      && (forall i :: 0 <= i < k ==> r.loops[i] == Loop(order[i], m.handlers[order[i]]))
      && (r.outcome.Pass? <==> k == |order|)
      && (r.outcome.Fail? ==>
           r.outcome.error == StartFailed(order[k], ConsumeFailed(Answer(s.chanOpen, subscribe(order[k])).error)))
    ensures r.session.connOpen == s.connOpen && (r.session.chanOpen <==> s.chanOpen && r.outcome.Pass?)
    decreases |order|
  {
    if order == [] then Started(Pass, [], s)
    else
      var q := order[0];
      var sub := ConsumeMessages(m.consumer, q, subscribe(q), s);
      if sub.result.Err? then
        Started(Fail(StartFailed(q, sub.result.error)), [], sub.session)
      else
        var rest := StartEach(m, order[1..], subscribe, sub.session);
        Started(rest.outcome, [Loop(q, m.handlers[q])] + rest.loops, rest.session)
  }

  /** A start subscribes to the queues of `order` in turn, up to and including the refused one. */
  lemma {:induction false} StartEachCalls<H>(m: Manager<H>, order: seq<string>, subscribe: string -> Outcome, s: Session)
    requires forall i :: 0 <= i < |order| ==> order[i] in m.handlers
    requires |order| > 0 ==> m.consumer.channel.Some?
    ensures var n := Attempted(order, s.chanOpen, subscribe);
      StartEach(m, order, subscribe, s).session.calls == s.calls + SubscribeCalls(order[..n])
    decreases |order|
  {
    if order != [] {
      var q := order[0];
      var sub := ConsumeMessages(m.consumer, q, subscribe(q), s);
      var n := Attempted(order, s.chanOpen, subscribe);
      if sub.result.Err? {
        assert n == 1 && order[..1][1..] == [];
      } else {
        StartEachCalls(m, order[1..], subscribe, sub.session);
        assert n == 1 + Attempted(order[1..], sub.session.chanOpen, subscribe);
        assert order[..n][1..] == order[1..][..n - 1];
      }
    }
  }

  /**
    `m.StartListening()`, where `order` is the order the map happens to be
    ranged in and `subscribe` says how the broker answers each subscription
    while the channel is open.
   */
  function StartListening<H>(m: Manager<H>, order: seq<string>, subscribe: string -> Outcome, s: Session)
    : (r: Started<H>)
    requires Enumerates(order, m.handlers.Keys)
    requires m.handlers != map[] ==> m.consumer.channel.Some?
    ensures r.outcome.Pass? <==>
      m.handlers == map[] || (s.chanOpen && forall q :: q in m.handlers ==> subscribe(q).Pass?)
    ensures var k := StartRefusal(order, s.chanOpen, subscribe);
      && |r.loops| == k
      && (forall i :: 0 <= i < k ==> r.loops[i] == Loop(order[i], m.handlers[order[i]]))
      && (r.outcome.Fail? ==>
           var q := order[k];
           && (!s.chanOpen || subscribe(q).Fail?)
           && r.outcome.error == StartFailed(q, ConsumeFailed(Answer(s.chanOpen, subscribe(q)).error))
           && (forall i :: 0 <= i < |r.loops| ==> r.loops[i].queue != q))
    ensures forall i :: 0 <= i < |r.loops| ==>
      r.loops[i].queue in m.handlers && r.loops[i].handler == m.handlers[r.loops[i].queue]
    ensures forall i, j :: 0 <= i < j < |r.loops| ==> r.loops[i].queue != r.loops[j].queue
    ensures r.outcome.Pass? ==>
      forall q :: q in m.handlers ==> exists i :: 0 <= i < |r.loops| && r.loops[i] == Loop(q, m.handlers[q])
    ensures r.session.calls == s.calls + SubscribeCalls(order[..Attempted(order, s.chanOpen, subscribe)])
    ensures r.session.connOpen == s.connOpen && (r.session.chanOpen <==> s.chanOpen && r.outcome.Pass?)
  {
    EnumerationCovers(m, order, subscribe, s);
    StartEachCalls(m, order, subscribe, s);
    StartEach(m, order, subscribe, s)
  }

  /** Over an enumeration of the map's keys, the loops started are the keys' loops. */
  lemma EnumerationCovers<H>(m: Manager<H>, order: seq<string>, subscribe: string -> Outcome, s: Session)
    requires Enumerates(order, m.handlers.Keys)
    requires m.handlers != map[] ==> m.consumer.channel.Some?
    ensures |order| > 0 ==> m.consumer.channel.Some?
    ensures var r := StartEach(m, order, subscribe, s);
      && (r.outcome.Pass? <==> m.handlers == map[] || (s.chanOpen && forall q :: q in m.handlers ==> subscribe(q).Pass?))
      && (r.outcome.Pass? ==>
           forall q :: q in m.handlers ==> exists i :: 0 <= i < |r.loops| && r.loops[i] == Loop(q, m.handlers[q]))
  {
    if |order| > 0 {
      assert order[0] in m.handlers;
    }
    var r := StartEach(m, order, subscribe, s);
    if r.outcome.Pass? {
      forall q | q in m.handlers
        ensures s.chanOpen && subscribe(q).Pass?
        ensures exists i :: 0 <= i < |r.loops| && r.loops[i] == Loop(q, m.handlers[q])
      {
        assert q in order;
        var i :| 0 <= i < |order| && order[i] == q;
        assert r.loops[i] == Loop(q, m.handlers[q]);
      }
    } else {
      var k := StartRefusal(order, s.chanOpen, subscribe);
      assert order[k] in m.handlers;
    }
  }

  /**
    The goroutine of one queue: it hands each delivery's body to the handler,
    in the order the stream yields them, one at a time. A handler error is
    only logged, so the loop goes on with the next delivery. `outcomes[i]`
    is what the handler answers for the `i`-th delivery.
   */
  function Dispatch<H>(loop: Loop<H>, deliveries: seq<Delivery>, outcomes: seq<Outcome>)
    : (r: seq<Invocation<H>>)
    requires |outcomes| == |deliveries|
    ensures |r| == |deliveries|
    ensures forall i :: 0 <= i < |r| ==>
      r[i] == Invocation(loop.queue, loop.handler, deliveries[i].body, outcomes[i])
    decreases |deliveries|
  {
    if deliveries == [] then []
    else
      [Invocation(loop.queue, loop.handler, deliveries[0].body, outcomes[0])]
        + Dispatch(loop, deliveries[1..], outcomes[1..])
  }

  /** A loop hands every delivery to its own handler, and to no other. */
  lemma DispatchServes<H>(loop: Loop<H>, deliveries: seq<Delivery>, outcomes: seq<Outcome>)
    requires |outcomes| == |deliveries|
    ensures forall inv :: inv in Dispatch(loop, deliveries, outcomes) ==>
      inv.queue == loop.queue && inv.handler == loop.handler
  {
    var r := Dispatch(loop, deliveries, outcomes);
    forall x | x in r
      ensures x.queue == loop.queue && x.handler == loop.handler
    {
      var j :| 0 <= j < |r| && r[j] == x;
    }
  }

  /**
    The loop is a fold: whatever the handler answered for the earlier
    deliveries, the later ones are handled exactly as if they came first.
   */
  lemma {:induction false} DispatchSplit<H>(loop: Loop<H>, d1: seq<Delivery>, o1: seq<Outcome>, d2: seq<Delivery>, o2: seq<Outcome>)
    requires |o1| == |d1| && |o2| == |d2|
    ensures Dispatch(loop, d1 + d2, o1 + o2) == Dispatch(loop, d1, o1) + Dispatch(loop, d2, o2)
    decreases |d1|
  {
    if d1 != [] {
      assert (d1 + d2)[1..] == d1[1..] + d2;
      assert (o1 + o2)[1..] == o1[1..] + o2;
      DispatchSplit(loop, d1[1..], o1[1..], d2, o2);
    }
  }

  /** The errors among a handler's answers, in order. */
  function ErrorsOf(outcomes: seq<Outcome>): (r: seq<Error>)
    ensures forall e :: e in r <==> Fail(e) in outcomes
    ensures r == [] <==> forall i :: 0 <= i < |outcomes| ==> outcomes[i].Pass?
    decreases |outcomes|
  {
    if outcomes == [] then []
    else if outcomes[0].Fail? then [outcomes[0].error] + ErrorsOf(outcomes[1..])
    else ErrorsOf(outcomes[1..])
  }

  /** The errors of a longer run are those of its first part followed by those of the rest. */
  lemma {:induction false} ErrorsOfSplit(o1: seq<Outcome>, o2: seq<Outcome>)
    ensures ErrorsOf(o1 + o2) == ErrorsOf(o1) + ErrorsOf(o2)
    decreases |o1|
  {
    if o1 == [] {
      assert o1 + o2 == o2;
    } else {
      assert (o1 + o2)[1..] == o1[1..] + o2;
      ErrorsOfSplit(o1[1..], o2);
    }
  }

  /** What the handler answered, call by call. */
  function Outcomes<H>(invocations: seq<Invocation<H>>): seq<Outcome>
  {
    seq(|invocations|, i requires 0 <= i < |invocations| => invocations[i].outcome)
  }

  /** The errors a loop logs: those among its handler's answers, in order. */
  function Failures<H>(invocations: seq<Invocation<H>>): seq<Error>
  {
    ErrorsOf(Outcomes(invocations))
  }

  /**
    Handler errors are logged, never raised: a loop logs exactly the errors
    its handler returned, in order, and logs nothing exactly when every call
    succeeded.
   */
  lemma FailuresAreHandlerErrors<H>(loop: Loop<H>, deliveries: seq<Delivery>, outcomes: seq<Outcome>)
    requires |outcomes| == |deliveries|
    ensures Failures(Dispatch(loop, deliveries, outcomes)) == ErrorsOf(outcomes)
    ensures forall e :: e in Failures(Dispatch(loop, deliveries, outcomes)) <==> Fail(e) in outcomes
    ensures Failures(Dispatch(loop, deliveries, outcomes)) == [] <==>
      forall i :: 0 <= i < |outcomes| ==> outcomes[i].Pass?
  {
    assert Outcomes(Dispatch(loop, deliveries, outcomes)) == outcomes;
  }

  /** `m.Close()`: it only closes the consumer. */
  function Close<H>(m: Manager<H>, s: Session): (r: Session)
    ensures r.calls == s.calls + CloseCalls(m.consumer)
    ensures m.consumer.conn.Some? ==> NothingOpen(r)
    ensures Live(m.consumer, s) ==> NothingOpen(r) && r.calls == s.calls + [CloseChannel, CloseConnection]
  {
    RabbitConsumer.Close(m.consumer, s)
  }

  /**
    Registering a second handler under a name replaces the first. On a
    closed channel neither registration takes effect.
   */
  lemma OverwriteKeepsLast<H>(m: Manager<H>, queueName: string, first: H, second: H, s: Session)
    requires m.consumer.channel.Some?
    ensures var r1 := RegisterQueue(m, queueName, first, Pass, s);
      var r2 := RegisterQueue(r1.manager, queueName, second, Pass, r1.session);
      && r2.session.calls == s.calls + [QueueDeclare(DeclareRequest(queueName)), QueueDeclare(DeclareRequest(queueName))]
      && (s.chanOpen ==>
           && r2.manager.handlers.Keys == m.handlers.Keys + {queueName}
           && r2.manager.handlers[queueName] == second)
      && (!s.chanOpen ==> r2.manager == m)
  {
  }

  /**
    Registration on an open channel followed by a start in which the broker
    accepts every subscription leaves exactly one loop on the registered
    queue, bound to the handler given last.
   */
  lemma RegisterThenStart<H>(m: Manager<H>, queueName: string, handler: H, s: Session,
                             order: seq<string>, subscribe: string -> Outcome)
    requires m.consumer.channel.Some? && s.chanOpen
    requires Enumerates(order, RegisterQueue(m, queueName, handler, Pass, s).manager.handlers.Keys)
    requires forall i :: 0 <= i < |order| ==> subscribe(order[i]).Pass?
    ensures var reg := RegisterQueue(m, queueName, handler, Pass, s);
      var st := StartListening(reg.manager, order, subscribe, reg.session);
      && st.outcome == Pass
      && (exists i :: 0 <= i < |st.loops| && st.loops[i] == Loop(queueName, handler)
           && forall j :: 0 <= j < |st.loops| && st.loops[j].queue == queueName ==> j == i)
  {
    var reg := RegisterQueue(m, queueName, handler, Pass, s);
    var st := StartListening(reg.manager, order, subscribe, reg.session);
    forall q | q in reg.manager.handlers
      ensures subscribe(q).Pass?
    {
      assert q in order;
    }
    var i :| 0 <= i < |st.loops| && st.loops[i] == Loop(queueName, reg.manager.handlers[queueName]);
  }
}
