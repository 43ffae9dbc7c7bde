/**
  The SMTP sender of internal/email/email_sender.go: the mail text it builds,
  the server address it dials, and its switch that turns sending off.

  `smtp.SendMail` is not modelled: the request it would receive is recorded,
  and its answer is an input. `smtp.PlainAuth` is kept as the record of its
  arguments.
 */
module Email {
  import opened Errors
  import opened Text
  import opened Decimal

  datatype Auth = PlainAuth(identity: string, username: string, password: string, host: string)

  datatype EmailSender = EmailSender(enabled: bool, smtpServer: string, port: int, auth: Auth, from: string)

  /** The arguments of one `smtp.SendMail(addr, auth, from, to, msg)` call. */
  datatype SmtpRequest = SmtpRequest(addr: string, auth: Auth, from: string, to: seq<string>, msg: string)

  /** What `SendEmail` returned, and the SMTP request it made, if any. */
  datatype SendReport = SendReport(outcome: Outcome, request: Option<SmtpRequest>)

  /** The header fields and body a mail text carries. */
  datatype Mail = Mail(from: string, to: string, subject: string, body: string)

  const CRLF := "\r\n"

  /** `NewEmailSender(...)`: the settings are kept as given; the credentials only go into `auth`. */
  function NewEmailSender(enabled: bool, smtpServer: string, port: int, username: string, password: string, from: string)
    : (e: EmailSender)
    ensures e.enabled == enabled && e.smtpServer == smtpServer && e.port == port && e.from == from
    ensures e.auth == PlainAuth("", username, password, smtpServer)
  {
    EmailSender(enabled, smtpServer, port, PlainAuth("", username, password, smtpServer), from)
  }

  /** The mail text: three header lines, an empty line, then the body, every line ended by CRLF. */
  function ComposeMessage(from: string, to: string, subject: string, body: string): string
  {
    "From: " + from + CRLF + "To: " + to + CRLF + "Subject: " + subject + CRLF + CRLF + body + CRLF
  }

  /** `fmt.Sprintf("%s:%d", server, port)`. */
  function Address(server: string, port: int): string
  {
    server + ":" + FormatInt(port)
  }

  /**
    `e.SendEmail(to, subject, body)`, given what `smtp.SendMail` answers.
    A disabled sender sends nothing and reports success.
   */
  function SendEmail(e: EmailSender, to: string, subject: string, body: string, reply: Outcome): (r: SendReport)
    ensures !e.enabled ==> r == SendReport(Pass, None)
    ensures e.enabled ==> r.request.Some?
    ensures r.request.Some? ==>
      var req := r.request.value;
      && req.addr == Address(e.smtpServer, e.port)
      && req.auth == e.auth
      && req.from == e.from
      && req.to == [to]
      && req.msg == ComposeMessage(e.from, to, subject, body)
    ensures e.enabled ==> (r.outcome.Pass? <==> reply.Pass?)
    ensures e.enabled && reply.Fail? ==> r.outcome == Fail(SendFailed(reply.error))
  {
    if e.enabled then
      var msg := ComposeMessage(e.from, to, subject, body);
      var request := SmtpRequest(Address(e.smtpServer, e.port), e.auth, e.from, [to], msg);
      if reply.Fail? then SendReport(Fail(SendFailed(reply.error)), Some(request))
      else SendReport(Pass, Some(request))
    else
      SendReport(Pass, None)
  }

  // Reading a mail text and an address back.

  /** Splits `s` after its first line: the text before the first CRLF, and the rest. */
  function TakeLine(s: string): Option<(string, string)>
    decreases |s|
  {
    if |s| < 2 then None
    else if s[0] == '\r' && s[1] == '\n' then Some(("", s[2..]))
    else
      match TakeLine(s[1..])
      case None => None
      case Some((line, rest)) => Some(([s[0]] + line, rest))
  }

  /** Reads the header line `name: value` CRLF at the start of `s`. */
  function TakeField(name: string, s: string): Option<(string, string)>
  {
    var tag := name + ": ";
    if |tag| <= |s| && s[..|tag|] == tag then TakeLine(s[|tag|..]) else None
  }

  /** Reads a mail text laid out as `ComposeMessage` lays it out. */
  function ParseMessage(msg: string): Option<Mail>
  {
    var (from, r1) :- TakeField("From", msg);
    var (to, r2) :- TakeField("To", r1);
    var (subject, r3) :- TakeField("Subject", r2);
    if |r3| >= 4 && r3[..2] == CRLF && r3[|r3| - 2..] == CRLF then
      Some(Mail(from, to, subject, r3[2..|r3| - 2]))
    else None
  }

  /** Splits `host:port` at the last colon and reads the port. */
  function SplitAddress(addr: string): Option<(string, int)>
  {
    var colon := LastIndexOf(addr, ':');
    if colon < 0 then None
    else
      match ParseInt(addr[colon + 1..])
      case None => None
      case Some(port) => Some((addr[..colon], port))
  }

  /** A header value the layout can carry: it holds no carriage return. */
  predicate OneLine(s: string)
  {
    '\r' !in s
  }

  lemma {:induction false} TakeLineJoin(line: string, rest: string)
    requires OneLine(line)
    ensures TakeLine(line + CRLF + rest) == Some((line, rest))
    decreases |line|
  {
    var s := line + CRLF + rest;
    if line == [] {
      assert s == CRLF + rest;
    } else {
      assert line[0] in line;
      assert s[1..] == line[1..] + CRLF + rest;
      assert line[1..] + CRLF + rest == s[1..];
      TakeLineJoin(line[1..], rest);
      assert [s[0]] + line[1..] == line;
    }
  }

  lemma TakeFieldJoin(name: string, value: string, rest: string)
    requires OneLine(value)
    ensures TakeField(name, name + ": " + value + CRLF + rest) == Some((value, rest))
  {
    var s := name + ": " + value + CRLF + rest;
    var tag := name + ": ";
    assert s[..|tag|] == tag;
    assert s[|tag|..] == value + CRLF + rest;
    TakeLineJoin(value, rest);
  }

  /**
    The mail text keeps the header values and the body apart: it reads back
    as exactly the fields it was built from, provided no header value holds
    a carriage return. The body may hold anything.
   */
  lemma ComposeParseRoundTrip(from: string, to: string, subject: string, body: string)
    requires OneLine(from) && OneLine(to) && OneLine(subject)
    ensures ParseMessage(ComposeMessage(from, to, subject, body)) == Some(Mail(from, to, subject, body))
  {
    var r3 := CRLF + body + CRLF;
    var r2 := "Subject: " + subject + CRLF + r3;
    var r1 := "To: " + to + CRLF + r2;
    var msg := "From: " + from + CRLF + r1;
    assert ComposeMessage(from, to, subject, body) == msg;
    assert "From" + ": " == "From: " && "To" + ": " == "To: " && "Subject" + ": " == "Subject: ";
    TakeFieldJoin("From", from, r1);
    TakeFieldJoin("To", to, r2);
    TakeFieldJoin("Subject", subject, r3);
    assert TakeField("From", msg) == Some((from, r1));
    assert TakeField("To", r1) == Some((to, r2));
    assert TakeField("Subject", r2) == Some((subject, r3));
    assert r3[..2] == CRLF && r3[|r3| - 2..] == CRLF;
    assert r3[2..|r3| - 2] == body;
  }

  /** The address loses nothing: it reads back as the server and the port, whatever colons the server holds. */
  lemma AddressRoundTrip(server: string, port: int)
    ensures SplitAddress(Address(server, port)) == Some((server, port))
  {
    var digits := FormatInt(port);
    assert forall i :: 0 <= i < |digits| ==> digits[i] != ':';
    LastIndexOfJoin(server, ':', digits);
    assert Address(server, port) == server + [':'] + digits;
    var addr := Address(server, port);
    assert addr[|server| + 1..] == digits;
    assert addr[..|server|] == server;
    FormatIntRoundTrip(port);
  }

  /**
    What an enabled sender hands to SMTP reads back as the server and port it
    was configured with, its sender address, the one recipient, and the
    subject and body it was asked to send.
   */
  lemma SentRequestRoundTrip(e: EmailSender, to: string, subject: string, body: string, reply: Outcome)
    requires e.enabled
    requires OneLine(e.from) && OneLine(to) && OneLine(subject)
    ensures var req := SendEmail(e, to, subject, body, reply).request.value;
      && SplitAddress(req.addr) == Some((e.smtpServer, e.port))
      && ParseMessage(req.msg) == Some(Mail(e.from, to, subject, body))
      && req.from == e.from && req.to == [to]
  {
    AddressRoundTrip(e.smtpServer, e.port);
    ComposeParseRoundTrip(e.from, to, subject, body);
  }

  /** A sender built by `NewEmailSender` dials the server and port it was given, as its `from`. */
  lemma ConfiguredSenderSends(smtpServer: string, port: int, username: string, password: string, from: string,
                              to: string, subject: string, body: string, reply: Outcome)
    ensures var e := NewEmailSender(true, smtpServer, port, username, password, from);
      var req := SendEmail(e, to, subject, body, reply).request.value;
      && SplitAddress(req.addr) == Some((smtpServer, port))
      && req.auth.host == smtpServer
      && req.from == from
  {
    AddressRoundTrip(smtpServer, port);
  }
}
