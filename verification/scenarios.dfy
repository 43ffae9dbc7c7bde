/**
  The service as cmd/main.go assembles it, run through whole scenarios: one
  consumer manager, the verification handler on the queue
  "user-verification-email", and its loop.
 */
module Scenarios {
  import opened Errors
  import opened Text
  import opened Amqp
  import opened RabbitConsumer
  import opened ConsumerManager
  import opened Email
  import opened Handlers

  const VerificationQueue := "user-verification-email"

  /**
    Start-up with every broker call succeeding: dial, channel, one
    declaration, one subscription, and exactly one loop, bound to the
    verification handler. A close afterwards, which cmd/main.go defers but
    never reaches, releases the channel and then the connection.
   */
  lemma Startup(url: string, h: UserVerificationEmailHandler, subscribe: string -> Outcome)
    requires subscribe(VerificationQueue).Pass?
    ensures var created := NewConsumerManager<UserVerificationEmailHandler>(url, Pass, Pass);
      var m := created.result.value;
      var reg := RegisterQueue(m, VerificationQueue, h, Pass, created.session);
      var st := StartListening(reg.manager, [VerificationQueue], subscribe, reg.session);
      var closed := ConsumerManager.Close(reg.manager, st.session);
      && reg.outcome == Pass
      && st.outcome == Pass
      && st.loops == [Loop(VerificationQueue, h)]
      && st.session.calls == [Dial(url), OpenChannel, QueueDeclare(DeclareRequest(VerificationQueue)),
                              Consume(ConsumeRequest(VerificationQueue))]
      && st.session.connOpen && st.session.chanOpen
      && closed.calls == st.session.calls + [CloseChannel, CloseConnection]
      && NothingOpen(closed)
  {
    var created := NewConsumerManager<UserVerificationEmailHandler>(url, Pass, Pass);
    var m := created.result.value;
    var reg := RegisterQueue(m, VerificationQueue, h, Pass, created.session);
    assert reg.manager.handlers == map[VerificationQueue := h];
    var order := [VerificationQueue];
    assert Enumerates(order, reg.manager.handlers.Keys);
    assert reg.session.chanOpen;
    assert FirstRefusal(order, subscribe) == 1;
    assert Attempted(order, true, subscribe) == 1 && order[..1] == order;
    var st := StartListening(reg.manager, order, subscribe, reg.session);
    assert SubscribeCalls(order) == [Consume(ConsumeRequest(VerificationQueue))];
  }

  /**
    One delivery whose payload decodes to alice's request, with mail sending
    enabled and SMTP accepting: the handler mails alice@example.com under the
    verification subject, the body carries the token abc123 inside the
    verification link, the handler succeeds, and the loop records that one
    successful call.
   */
  lemma DeliveryToAlice(sender: EmailSender, payload: seq<byte>, decode: seq<byte> -> Result<VerificationMessage>)
    requires sender.enabled
    requires decode(payload) == Ok(VerificationMessage("alice", "alice@example.com", "abc123"))
    ensures var h := UserVerificationEmailHandler(sender);
      var r := HandleMessage(h, payload, decode, Pass);
      && r.outcome == Pass
      && r.call.Some?
      && r.call.value.to == "alice@example.com"
      && r.call.value.subject == "Verify Your Account"
      && Contains(r.call.value.body, "abc123")
      && Contains(r.call.value.body, VerificationLink("abc123"))
      && r.request.value.to == ["alice@example.com"]
      && Dispatch(Loop(VerificationQueue, h), [Delivery(payload)], [r.outcome])
         == [Invocation(VerificationQueue, h, payload, Pass)]
  {
    BodyMentions("alice", "abc123");
  }

  /**
    A send failure on the first of two deliveries: the handler returns the
    wrapped SMTP error, the loop logs it, and the second delivery is still
    handed to the handler.
   */
  lemma SendFailureDoesNotStopLoop(sender: EmailSender, first: seq<byte>, second: seq<byte>,
                                   decode: seq<byte> -> Result<VerificationMessage>, smtpError: Error,
                                   secondOutcome: Outcome)
    requires sender.enabled
    requires decode(first).Ok?
    ensures var h := UserVerificationEmailHandler(sender);
      var r := HandleMessage(h, first, decode, Fail(smtpError));
      var loop := Loop(VerificationQueue, h);
      var inv := Dispatch(loop, [Delivery(first), Delivery(second)], [r.outcome, secondOutcome]);
      && r.outcome == Fail(SendFailed(smtpError))
      && |inv| == 2
      && inv[1] == Invocation(VerificationQueue, h, second, secondOutcome)
      && Failures(inv)[0] == SendFailed(smtpError)
  {
    var h := UserVerificationEmailHandler(sender);
    var r := HandleMessage(h, first, decode, Fail(smtpError));
    var inv := Dispatch(Loop(VerificationQueue, h), [Delivery(first), Delivery(second)], [r.outcome, secondOutcome]);
    assert inv[0].outcome == Fail(SendFailed(smtpError));
  }

  /**
    A refused declaration closes the channel: a later registration fails
    with `ErrClosed` whatever the broker would have answered, leaves the
    registry as it was, and a start then subscribes to nothing and starts no
    loop.
   */
  lemma RefusedDeclarationClosesChannel<H>(m: Manager<H>, first: string, second: string, h1: H, h2: H,
                                           refusal: Error, s: Session, order: seq<string>,
                                           subscribe: string -> Outcome)
    requires m.consumer.channel.Some?
    requires var r1 := RegisterQueue(m, first, h1, Fail(refusal), s);
      var r2 := RegisterQueue(r1.manager, second, h2, Pass, r1.session);
      Enumerates(order, r2.manager.handlers.Keys)
    ensures var r1 := RegisterQueue(m, first, h1, Fail(refusal), s);
      var r2 := RegisterQueue(r1.manager, second, h2, Pass, r1.session);
      var st := StartListening(r2.manager, order, subscribe, r2.session);
      && r1.outcome.Fail? && !r1.session.chanOpen
      && r2.outcome == Fail(DeclareFailed(second, ErrClosed))
      && r2.manager == m
      && (m.handlers != map[] ==> st.outcome.Fail? && st.outcome.error.cause.cause == ErrClosed)
      && st.loops == []
  {
    var r1 := RegisterQueue(m, first, h1, Fail(refusal), s);
    var r2 := RegisterQueue(r1.manager, second, h2, Pass, r1.session);
    var st := StartListening(r2.manager, order, subscribe, r2.session);
    if m.handlers != map[] {
      var q :| q in m.handlers;
      assert q in order;
      assert StartRefusal(order, false, subscribe) == 0;
    }
  }

  /**
    Registering a second handler on the queue, on an open channel, replaces
    the first: every loop a start leaves on the queue is the second
    handler's loop, and that loop hands every delivery to the second handler.
   */
  lemma SecondRegistrationWins<H>(m: Manager<H>, first: H, second: H, s: Session,
                                  order: seq<string>, subscribe: string -> Outcome,
                                  deliveries: seq<Delivery>, outcomes: seq<Outcome>)
    requires m.consumer.channel.Some? && s.chanOpen
    requires |outcomes| == |deliveries|
    requires var r1 := RegisterQueue(m, VerificationQueue, first, Pass, s);
      var r2 := RegisterQueue(r1.manager, VerificationQueue, second, Pass, r1.session);
      Enumerates(order, r2.manager.handlers.Keys)
    ensures var r1 := RegisterQueue(m, VerificationQueue, first, Pass, s);
      var r2 := RegisterQueue(r1.manager, VerificationQueue, second, Pass, r1.session);
      var st := StartListening(r2.manager, order, subscribe, r2.session);
      forall i :: 0 <= i < |st.loops| && st.loops[i].queue == VerificationQueue ==>
        st.loops[i] == Loop(VerificationQueue, second)
    ensures forall inv :: inv in Dispatch(Loop(VerificationQueue, second), deliveries, outcomes) ==>
      inv.handler == second
  {
    OverwriteKeepsLast(m, VerificationQueue, first, second, s);
    DispatchServes(Loop(VerificationQueue, second), deliveries, outcomes);
  }

}
