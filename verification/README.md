# lgm8 notification service — a Dafny model of its consumer core

The service is a background worker. It connects to RabbitMQ, declares one queue
per handler, subscribes to each queue, and hands every delivery to the queue's
handler. The one handler it ships mails a verification link to a new user over
SMTP. This project models that core:

- the RabbitMQ consumer of `internal/rabbitmq/consumer.go`. It opens one
  connection and one channel and closes the connection again if the channel
  fails. It declares durable queues, subscribes with acknowledgement on receipt,
  and on close releases the channel before the connection.
- the dispatch registry of `internal/rabbitmq/consumer_manager.go`. It keeps a
  map from queue name to handler. Registering declares the queue first and may
  overwrite an earlier entry. Starting subscribes to the queues in the map's
  (unspecified) order and stops at the first refusal. It neither stops nor
  rolls back the loops it already started, but the refusal closed the channel,
  so amqp091-go closes their streams as well, and those loops end. A
  per-queue loop calls the handler once per delivery, in order, and goes on
  after handler errors.
- the email sender of `internal/email/email_sender.go`. It builds the mail text
  (header lines, an empty line, the body, all ended by CRLF, as section 2.1 of
  RFC 5322 lays a message out) and the `host:port` address. It also has a switch
  that turns sending into a successful no-op.
- the verification handler of `internal/handlers/user_verification_handler.go`,
  which builds the subject, link and body and sends exactly once.

The libraries are not modelled. Each call into amqp091-go is recorded in a
`Session` log together with the open/closed state of the connection and
channel, and the broker's answer (nil or an error) is an input. A refused
queue declaration or subscription is an AMQP 0-9-1 channel exception: it closes
the channel. Every later call on that channel gets amqp091-go's `ErrClosed`,
whatever the broker would have answered. In the same way,
`smtp.SendMail` is a recorded request plus an input answer, and `json.Unmarshal`
is an input function from payload bytes to a decoded message. The order in which
Go ranges over the handler map is an input: any listing of its keys, each key
once. What a handler answers for each delivery is an input of the loop, one
answer per delivery.

Each pure builder has an independent inverse, and a round-trip lemma relates the
two:
- the mail text reads back as its header fields and body;
- the address reads back as server and port, with `%d` read back as the same
  integer;
- the mail body reads back as the user name and the link;
- the link reads back as its token.

Files: `errors.dfy` (Go errors and `%w` wrapping), `text.dfy` (substring and
last-index facts), `decimal.dfy` (`%d`), `amqp.dfy` (library calls and
resource state), `consumer.dfy`, `consumer_manager.dfy`, `email.dfy`,
`handlers.dfy`, and `scenarios.dfy` (whole runs as `cmd/main.go` wires them).

## Model

| member | source | states |
|---|---|---|
| RabbitConsumer.NewConsumer | internal/rabbitmq/consumer.go:17-33 | A failed dial returns the wrapped dial error and no consumer. A failed channel after a good dial closes the connection before the wrapped channel error is returned. Either way nothing is left open. On success both fields are set and both resources are open. |
| RabbitConsumer.DeclareQueue | internal/rabbitmq/consumer.go:36-49 | Issues exactly one declaration: durable, not auto-deleted, not exclusive, waiting for the reply. It succeeds exactly when the channel is open and the broker accepts. On failure it returns an error that names the queue and wraps the broker's error, or `ErrClosed` if the channel was already closed. The channel stays open exactly when the declaration succeeds; the connection is untouched. |
| RabbitConsumer.ConsumeMessages | internal/rabbitmq/consumer.go:52-68 | Issues exactly one subscription with an empty tag, auto-ack on, not exclusive. It returns the queue's stream exactly when the channel is open and the broker accepts. Otherwise it returns the wrapped broker error (or `ErrClosed` on a closed channel) and no stream, and the channel is closed. |
| RabbitConsumer.Close | internal/rabbitmq/consumer.go:71-78 | Closes the channel, then the connection, each only if its field is set. With the connection set, nothing is left open afterwards. |
| RabbitConsumer.OpenThenClose | internal/rabbitmq/consumer.go:71-78 | Closing any consumer `NewConsumer` produced leaves no resource open. |
| RabbitConsumer.CloseTwice | internal/rabbitmq/consumer.go:71-78 | A second close leaves the resources as the first did, but it repeats the library close calls: the fields are not cleared. |
| ConsumerManager.NewConsumerManager | internal/rabbitmq/consumer_manager.go:20-30 | Returns the consumer's error without further wrapping, with nothing left open. On success the handler map is empty and the consumer is live. |
| ConsumerManager.RegisterQueue | internal/rabbitmq/consumer_manager.go:33-39 | Declares the queue first. It succeeds exactly when the channel is open and the broker accepts. If the declaration fails, it returns that error unchanged, the registry is unchanged and the channel is closed. If it succeeds, the name maps to the new handler (replacing any earlier one), and every other entry is unchanged. |
| ConsumerManager.StartEach | internal/rabbitmq/consumer_manager.go:43-58 | Walks the queues in the given order and stops at the first refused subscription. On an open channel that is the first queue the broker refuses; on a closed one it is the first queue. One loop, bound to the queue's handler, is started for each queue before it. The error names the refused queue and wraps the subscription error. The channel stays open exactly when nothing was refused. |
| ConsumerManager.StartEachCalls | internal/rabbitmq/consumer_manager.go:43-47 | Subscriptions are requested in order, up to and including the refused one, and no further. |
| ConsumerManager.StartListening | internal/rabbitmq/consumer_manager.go:42-59 | For any order of the map's keys, success holds exactly when the map is empty, or the channel is open and the broker accepts every registered queue. The loops are exactly those of the queues before the refused one, in order, each bound to its handler. After a success each queue has exactly one loop. On failure the error names the refused queue, that queue has no loop, the loops started earlier are not rolled back, and the channel is closed. |
| ConsumerManager.EnumerationCovers | internal/rabbitmq/consumer_manager.go:43-58 | Ranging over every key once means a start succeeds exactly when the map is empty or the channel is open and every registered queue is accepted. After a success, every registered queue has its loop. |
| ConsumerManager.SubscribeCallsAt | internal/rabbitmq/consumer_manager.go:44 | The i-th subscription of a start is for the i-th queue of the order, with acknowledgement on receipt. |
| ConsumerManager.Dispatch | internal/rabbitmq/consumer_manager.go:49-56 | The handler is called exactly once per delivery, with that delivery's body, in stream order, and every call is recorded with its result. A handler error does not end the loop. |
| ConsumerManager.DispatchSplit | internal/rabbitmq/consumer_manager.go:50-55 | The loop is a fold: later deliveries are handled the same way whatever the handler answered for earlier ones. |
| ConsumerManager.DispatchServes | internal/rabbitmq/consumer_manager.go:49-56 | Every call a loop makes goes to the handler and queue the loop was started with. |
| ConsumerManager.ErrorsOf | internal/rabbitmq/consumer_manager.go:52-54 | The errors picked out of a handler's answers are exactly the errors of its failed answers. There are none exactly when every answer succeeded. |
| ConsumerManager.ErrorsOfSplit | internal/rabbitmq/consumer_manager.go:50-54 | The errors are picked out in order: those of a longer run are those of its first part followed by those of the rest. |
| ConsumerManager.FailuresAreHandlerErrors | internal/rabbitmq/consumer_manager.go:52-54 | The errors a loop logs are exactly the errors its handler returned, in order, and none escapes the loop. A loop logs nothing exactly when every call succeeded. |
| ConsumerManager.Close | internal/rabbitmq/consumer_manager.go:62-64 | Issues only the consumer's close calls. A live manager ends with channel then connection closed and nothing open. |
| ConsumerManager.OverwriteKeepsLast | internal/rabbitmq/consumer_manager.go:33-39 | Each of two registrations under one name declares the queue. On an open channel, they leave one entry holding the second handler. On a closed channel, neither changes the registry. |
| ConsumerManager.RegisterThenStart | internal/rabbitmq/consumer_manager.go:33-58 | A registration on an open channel, followed by a start in which the broker accepts every subscription, leaves exactly one loop on that queue, bound to the registered handler. |
| Errors.MessageKeepsCause | internal/rabbitmq/consumer.go:20-26 | Every `%w` wrapping keeps the wrapped error's text inside its own. |
| Errors.MessageNamesQueue | internal/rabbitmq/consumer_manager.go:46 | The declaration error and the start error both name their queue in their text. |
| Email.NewEmailSender | internal/email/email_sender.go:19-28 | Keeps enabled, server, port and from as given. Its authentication is plain auth for that server, with an empty identity. |
| Email.SendEmail | internal/email/email_sender.go:31-53 | A disabled sender succeeds and sends nothing. An enabled one sends once to the configured address, from `From`, to exactly `[to]`, with the composed text. SMTP failure becomes a wrapped error; SMTP success becomes success. |
| Email.ComposeParseRoundTrip | internal/email/email_sender.go:35-40 | The text is the three header lines, an empty line and the body, all CRLF-ended. It reads back as exactly its from, to, subject and body when no header value holds a carriage return. |
| Email.AddressRoundTrip | internal/email/email_sender.go:42 | The address is the server, a colon and the decimal port, and it reads back as that server and port. |
| Decimal.FormatIntRoundTrip | internal/email/email_sender.go:42 | `%d` writes a minus sign for negatives and then the digits, and the text reads back as the same integer. |
| Email.SentRequestRoundTrip | internal/email/email_sender.go:42-44 | When no header value (sender, recipient, subject) holds a carriage return, an enabled send's request reads back as the configured server and port, the sender, the single recipient, and the given subject and body. |
| Email.ConfiguredSenderSends | internal/email/email_sender.go:19-44 | An enabled sender built by `NewEmailSender` dials the server and port it was given, authenticates for that server, and sends as its `from`. |
| Handlers.HandleMessage | internal/handlers/user_verification_handler.go:28-48 | A payload that does not decode returns the decoder's error and sends nothing. Otherwise the sender is called exactly once, to the decoded address, with the fixed subject and the verification body. The sender's result is returned unchanged. |
| Handlers.LinkRoundTrip | internal/handlers/user_verification_handler.go:36 | The link is the fixed verification URL followed by the token, and it reads back as the token. |
| Handlers.BodyRoundTrip | internal/handlers/user_verification_handler.go:37 | The body is greeting, name, instructions, link on its own line, thanks. It reads back as the user name and the link, for any name and any single-line link. |
| Handlers.BodyMentions | internal/handlers/user_verification_handler.go:36-37 | The body contains the user name, the link, and so the token. |
| Handlers.HandledMailCarriesToken | internal/handlers/user_verification_handler.go:34-40 | With sending enabled, the mail goes to exactly the decoded address under "Verify Your Account". When the token holds no newline and neither address holds a carriage return, the body reads back as the decoded name and a link whose token is the decoded token. A token with a newline is a valid JSON value, but its body does not read back. |
| Scenarios.Startup | cmd/main.go:29-44 | A start-up in which every broker call succeeds issues dial, channel, one declaration and one subscription. It leaves one loop, bound to the verification handler. Closing then releases channel and connection. |
| Scenarios.DeliveryToAlice | internal/handlers/user_verification_handler.go:28-47 | With sending enabled, for alice's payload, the handler mails alice@example.com with the verification subject and a body holding `abc123` inside the link. It succeeds, and the loop records that one successful call. |
| Scenarios.SendFailureDoesNotStopLoop | internal/rabbitmq/consumer_manager.go:50-55 | A send failure on one delivery is returned as the wrapped SMTP error and logged, and the next delivery is still handled. |
| Scenarios.SecondRegistrationWins | internal/rabbitmq/consumer_manager.go:37 | After two registrations under one name on an open channel, every loop on that queue is the second handler's. That loop hands every delivery to the second handler. |
| Scenarios.RefusedDeclarationClosesChannel | internal/rabbitmq/consumer_manager.go:33-58 | After a refused declaration the channel is closed. A later registration fails with `ErrClosed` and leaves the registry as it was, whatever the broker would have answered. A start then starts no loop, and it fails if any queue is registered. |

## Left out

- Logging (`log.Printf`, `log.Println`): it has no effect on any result. The errors a loop logs are modelled (`Failures`), but their text is not.
- Goroutines and scheduling: each loop is an independent sequential fold over the deliveries its stream yields, with no interleaving across queues. The loop ends when the given delivery sequence ends. A closed stream is that end, and it is not modelled as an event: amqp091-go closes a consumer's stream when its channel closes, whether through a connection close or through a refused call that closed the channel.
- The amqp091-go and net/smtp libraries themselves: their answers are inputs. This includes `smtp.SendMail`'s own rejection of CR/LF in addresses, and anything `smtp.PlainAuth` does beyond holding its arguments. The errors the library close calls return are ignored, as the code ignores them.
- `json.Unmarshal`: it is an input function from payload to decoded message or error.
- The conversion of the mail text to `[]byte`: the text is kept as characters, with no UTF-8 encoding.
- Go's 64-bit `int` for the port: the port is unbounded. `%d` writes every 64-bit value the way the model writes it.
- Delivery fields other than `Body`, and the consumer tag amqp091-go generates on the client side when the tag is empty.
- Broker refusals that AMQP 0-9-1 raises as connection exceptions: every refused declaration or subscription is treated as a channel exception, which closes the channel but not the connection. Library calls on a closed connection are not modelled separately: closing the connection closes the channel, and later channel calls get `ErrClosed`.
- The `MessageHandler` interface and `NewUserVerificationEmailHandler` have no logic: a handler is any value of a type parameter, and the verification handler is its datatype constructor.
- Nil pointers: the manager always holds a consumer. `DeclareQueue` and `ConsumeMessages` require the channel field to be set, because Go would dereference a nil pointer. `StartListening` requires it only when there is a queue to subscribe.
- `config/config.go` (viper loading) and `cmd/main.go` (`log.Fatalf`, `defer`, `select {}`): they are composition and I/O. The composition itself is covered by `Scenarios.Startup`, up to its final close. In `cmd/main.go` the deferred `consumerManager.Close()` never runs: every failure exits through `log.Fatalf`, which skips deferred calls, and the success path blocks forever in `select {}`. The close in `Scenarios.Startup` is what a caller that does return would see.
- Idempotent close: `Close` is not idempotent, so idempotence is not claimed. The fields are not cleared, and a second call repeats the library close calls (`CloseTwice`). Callers may expect `Close` to be idempotent; the code does not make it so.
