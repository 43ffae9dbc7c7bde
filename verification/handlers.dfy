/**
  The handler of internal/handlers/user_verification_handler.go: it reads a
  user's name, address and token from the payload and mails them a
  verification link.

  `json.Unmarshal` is not modelled: what it makes of a payload is the input
  `decode`, a function of the payload bytes.
 */
module Handlers {
  import opened Errors
  import opened Text
  import opened Amqp
  import opened Email

  datatype VerificationMessage = VerificationMessage(username: string, email: string, token: string)

  datatype UserVerificationEmailHandler = UserVerificationEmailHandler(emailSender: EmailSender)

  /** The one call `EmailSender.SendEmail(to, subject, body)` a handler makes. */
  datatype SendCall = SendCall(to: string, subject: string, body: string)

  /** What `HandleMessage` returned, the send it asked for, and the SMTP request that followed. */
  datatype HandleReport = HandleReport(outcome: Outcome, call: Option<SendCall>, request: Option<SmtpRequest>)

  const Subject := "Verify Your Account"
  const LinkHost := "http://localhost"
  const VerifyPath := "/api/auth/v1/users/verify?token="
  const LinkPrefix := LinkHost + VerifyPath
  const Greeting := "Hello "
  const Instructions := ",\n\nPlease verify your account by clicking on the link below:\n"
  const Closing := "\n\nThank you!"

  /** The link that carries the token. */
  function VerificationLink(token: string): string
  {
    LinkPrefix + token
  }

  /** The text of the mail: greeting, instructions, the link on a line of its own, thanks. */
  function BodyText(username: string, link: string): string
  {
    Greeting + username + Instructions + link + Closing
  }

  /**
    `h.HandleMessage(payload)`. A payload that does not decode is refused
    with the decoder's error and nothing is sent; otherwise the handler sends
    once and returns the sender's error as it is.
   */
  function HandleMessage(h: UserVerificationEmailHandler, payload: seq<byte>,
                         decode: seq<byte> -> Result<VerificationMessage>, smtpReply: Outcome)
    : (r: HandleReport)
    ensures decode(payload).Err? ==> r == HandleReport(Fail(decode(payload).error), None, None)
    ensures decode(payload).Ok? ==>
      var msg := decode(payload).value;
      var sent := SendEmail(h.emailSender, msg.email, Subject, BodyText(msg.username, VerificationLink(msg.token)), smtpReply);
      && r.call == Some(SendCall(msg.email, Subject, BodyText(msg.username, VerificationLink(msg.token))))
      && r.outcome == sent.outcome
      && r.request == sent.request
  {
    match decode(payload)
    case Err(e) => HandleReport(Fail(e), None, None)
    case Ok(msg) =>
      var link := VerificationLink(msg.token);
      var body := BodyText(msg.username, link);
      var sent := SendEmail(h.emailSender, msg.email, Subject, body, smtpReply);
      HandleReport(sent.outcome, Some(SendCall(msg.email, Subject, body)), sent.request)
  }

  // Reading a link and a mail body back.

  /** The token a verification link carries. */
  function TokenOf(link: string): Option<string>
  {
    if |LinkPrefix| <= |link| && link[..|LinkPrefix|] == LinkPrefix then Some(link[|LinkPrefix|..]) else None
  }

  /** The user name and the link a verification body carries; the link is its last line but the closing. */
  function ParseBody(body: string): Option<(string, string)>
  {
    if |Greeting| + |Closing| <= |body|
       && body[..|Greeting|] == Greeting
       && body[|body| - |Closing|..] == Closing
    then
      var middle := body[|Greeting|..|body| - |Closing|];
      var nl := LastIndexOf(middle, '\n');
      if nl < 0 then None
      else
        var head := middle[..nl + 1];
        if |Instructions| <= |head| && head[|head| - |Instructions|..] == Instructions then
          Some((head[..|head| - |Instructions|], middle[nl + 1..]))
        else None
    else None
  }

  lemma LinkRoundTrip(token: string)
    ensures TokenOf(VerificationLink(token)) == Some(token)
  {
    var link := VerificationLink(token);
    assert link[..|LinkPrefix|] == LinkPrefix;
    assert link[|LinkPrefix|..] == token;
  }

  /**
    The body loses nothing: it reads back as the user name and the link, for
    any user name, as long as the link is a single line.
   */
  lemma BodyRoundTrip(username: string, link: string)
    requires '\n' !in link
    ensures ParseBody(BodyText(username, link)) == Some((username, link))
  {
    var body := BodyText(username, link);
    var middle := username + Instructions + link;
    assert body == Greeting + middle + Closing;
    assert body[..|Greeting|] == Greeting;
    assert body[|body| - |Closing|..] == Closing;
    assert body[|Greeting|..|body| - |Closing|] == middle;
    var lead := username + Instructions[..|Instructions| - 1];
    assert middle == lead + ['\n'] + link;
    LastIndexOfJoin(lead, '\n', link);
    var head := middle[..|lead| + 1];
    assert head == username + Instructions;
    assert head[|head| - |Instructions|..] == Instructions;
    assert head[..|head| - |Instructions|] == username;
    assert middle[|lead| + 1..] == link;
  }

  /** The mail body names the user and holds the link, and so the token. */
  lemma BodyMentions(username: string, token: string)
    ensures Contains(BodyText(username, VerificationLink(token)), username)
    ensures Contains(BodyText(username, VerificationLink(token)), VerificationLink(token))
    ensures Contains(BodyText(username, VerificationLink(token)), token)
  {
    var link := VerificationLink(token);
    assert BodyText(username, link) == Greeting + username + (Instructions + link + Closing);
    ContainsMiddle(Greeting, username, Instructions + link + Closing);
    ContainsMiddle(Greeting + username + Instructions, link, Closing);
    assert link == LinkPrefix + token + "";
    ContainsMiddle(LinkPrefix, token, "");
    ContainsTransitive(BodyText(username, link), link, token);
  }

  /**
    What the handler mails, read back: the message goes to the decoded
    address with the fixed subject, and its body yields the user name and a
    link whose token is the decoded token.
   */
  lemma HandledMailCarriesToken(h: UserVerificationEmailHandler, payload: seq<byte>,
                                decode: seq<byte> -> Result<VerificationMessage>, smtpReply: Outcome)
    requires decode(payload).Ok? && h.emailSender.enabled
    requires var msg := decode(payload).value;
      OneLine(h.emailSender.from) && OneLine(msg.email) && '\n' !in msg.token
    ensures var msg := decode(payload).value;
      var r := HandleMessage(h, payload, decode, smtpReply);
      && r.request.Some?
      && r.request.value.to == [msg.email]
      && (var mail := ParseMessage(r.request.value.msg);
          && mail.Some?
          && mail.value.to == msg.email
          && mail.value.subject == Subject
          && (var parts := ParseBody(mail.value.body);
              && parts == Some((msg.username, VerificationLink(msg.token)))
              && TokenOf(parts.value.1) == Some(msg.token)))
  {
    var msg := decode(payload).value;
    var link := VerificationLink(msg.token);
    var body := BodyText(msg.username, link);
    assert '\n' !in link by {
      assert '\n' !in LinkHost && '\n' !in VerifyPath;
      assert link == LinkHost + VerifyPath + msg.token;
    }
    ComposeParseRoundTrip(h.emailSender.from, msg.email, Subject, body);
    BodyRoundTrip(msg.username, link);
    LinkRoundTrip(msg.token);
  }
}
