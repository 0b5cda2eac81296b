/** The server side of the contact pipeline: the POST handler of the contact
    endpoint. It validates the body, checks the mail configuration, turns the
    message's newlines into line-break tags, composes the notification and the
    acknowledgement, makes one call to the email provider and maps the outcome
    to an HTTP response. The handler is a pure function of the request body,
    the configuration and the provider's reply. */
module Route {
  import opened Contact

  // ---------------------------------------------------------------------------
  // Server schema
  // ---------------------------------------------------------------------------

  const ServerMinName := 2
  const ServerMinSubject := 2
  const ServerMinMessage := 5

  /** The constraints of the server schema on four string fields. */
  predicate ServerAccepts(v: Submission, isEmail: EmailPredicate): (ok: bool)
    ensures ok <==> |v.name| >= 2 && isEmail(v.email) && |v.subject| >= 2 && |v.message| >= 5
  {
    && |v.name| >= ServerMinName
    && isEmail(v.email)
    && |v.subject| >= ServerMinSubject
    && |v.message| >= ServerMinMessage
  }

  /** `schema.parse`: the submission, or None where the validation library
      throws its validation error. */
  function ServerParse(j: Json, isEmail: EmailPredicate): (r: Option<Submission>)
    ensures r.Some? <==> Decode(j).Some? && ServerAccepts(Decode(j).value, isEmail)
    ensures r.Some? ==> r == Decode(j)
  {
    match Decode(j)
    case Some(v) => if ServerAccepts(v, isEmail) then Some(v) else None
    case None => None
  }

  /** Parsing is idempotent: the parsed submission, serialised again, parses
      to itself. */
  lemma ServerParseIdempotent(j: Json, isEmail: EmailPredicate)
    requires ServerParse(j, isEmail).Some?
    ensures ServerParse(Encode(ServerParse(j, isEmail).value), isEmail) == ServerParse(j, isEmail)
  {
    DecodeEncode(ServerParse(j, isEmail).value);
  }

  // ---------------------------------------------------------------------------
  // Configuration
  // ---------------------------------------------------------------------------

  /** The four environment variables the handler reads; None is unset. */
  datatype Env = Env(apiKey: Option<string>, apiSecret: Option<string>,
                     fromEmail: Option<string>, fromName: Option<string>)

  /** The configuration the handler goes on with once all required values are present. */
  datatype Config = Config(apiKey: string, apiSecret: string, fromEmail: string, fromName: string)

  const DefaultFromName := "Avuncular Group"

  /** JavaScript falsiness of a string variable: unset or empty. */
  predicate Falsy(o: Option<string>) {
    o.None? || o.value == ""
  }

  /** Reads the configuration; None is the "configuration missing" fault. The
      sender name falls back to the default only when it is unset. */
  function LoadConfig(env: Env): (c: Option<Config>)
    ensures c.None? <==> Falsy(env.apiKey) || Falsy(env.apiSecret) || Falsy(env.fromEmail)
    ensures c.Some? ==> && c.value.apiKey != "" && c.value.apiKey == env.apiKey.value
                        && c.value.apiSecret != "" && c.value.apiSecret == env.apiSecret.value
                        && c.value.fromEmail != "" && c.value.fromEmail == env.fromEmail.value
    ensures c.Some? && env.fromName.Some? ==> c.value.fromName == env.fromName.value
    ensures c.Some? && env.fromName.None? ==> c.value.fromName == DefaultFromName
  {
    var fromName := if env.fromName.Some? then env.fromName.value else DefaultFromName;
    if Falsy(env.apiKey) || Falsy(env.apiSecret) || Falsy(env.fromEmail) then None
    else Some(Config(env.apiKey.value, env.apiSecret.value, env.fromEmail.value, fromName))
  }

  /** The sender-name fallback is nullish, not falsy: an empty sender name is
      kept and the default is not substituted. */
  lemma EmptyFromNameKept(env: Env)
    requires LoadConfig(env).Some? && env.fromName == Some("")
    ensures LoadConfig(env).value.fromName == "" != DefaultFromName
  {
  }

  // ---------------------------------------------------------------------------
  // Newline sanitisation
  // ---------------------------------------------------------------------------

  const LineBreak := "<br />"

  /** `message.replace(/\n/g, "<br />")`: every line feed becomes a break tag,
      every other character is kept. */
  function Sanitize(s: string): (r: string)
    ensures '\n' !in r
    ensures '\n' !in s ==> r == s
    ensures |r| >= |s|
  {
    if s == [] then []
    else (if s[0] == '\n' then LineBreak else [s[0]]) + Sanitize(s[1..])
  }

  /** Number of line feeds in `s`. */
  function CountNewlines(s: string): nat {
    if s == [] then 0 else (if s[0] == '\n' then 1 else 0) + CountNewlines(s[1..])
  }

  /** Sanitising twice is sanitising once. */
  lemma SanitizeIdempotent(s: string)
    ensures Sanitize(Sanitize(s)) == Sanitize(s)
  {
  }

  /** Sanitising works piece by piece: it distributes over concatenation. */
  lemma {:induction false} SanitizeConcat(a: string, b: string)
    ensures Sanitize(a + b) == Sanitize(a) + Sanitize(b)
  {
    if a == [] {
      assert a + b == b;
    } else {
      assert (a + b)[0] == a[0];
      assert (a + b)[1..] == a[1..] + b;
      SanitizeConcat(a[1..], b);
    }
  }

  /** Each line feed grows the text by the five extra characters of the tag,
      and nothing else changes its length. */
  lemma {:induction false} SanitizeLength(s: string)
    ensures |Sanitize(s)| == |s| + (|LineBreak| - 1) * CountNewlines(s)
  {
    if s != [] {
      SanitizeLength(s[1..]);
    }
  }

  /** Sanitising is not injective: wherever it occurs, a break tag typed by the
      user and a line feed give the same HTML, since nothing else is escaped. */
  lemma {:induction false} SanitizeConflatesTypedTags(a: string, b: string)
    ensures Sanitize(a + "\n" + b) == Sanitize(a + LineBreak + b)
  {
    var nl := "\n";
    SanitizeConcat(a + nl, b);
    SanitizeConcat(a, nl);
    assert Sanitize(nl) == LineBreak;
    assert Sanitize(a + nl + b) == Sanitize(a) + LineBreak + Sanitize(b);
    SanitizeConcat(a + LineBreak, b);
    SanitizeConcat(a, LineBreak);
    assert Sanitize(a + LineBreak + b) == Sanitize(a) + LineBreak + Sanitize(b);
  }

  // ---------------------------------------------------------------------------
  // Outbound messages
  // ---------------------------------------------------------------------------

  /** An email address with its display name. */
  datatype Address = Address(email: string, name: string)

  /** One entry of the provider's `Messages` array. */
  datatype OutboundMessage = OutboundMessage(from: Address, to: seq<Address>, subject: string, htmlPart: string)

  const InboxAddress := Address(Inbox, "Avuncular Group")
  const SubjectPrefix := "[Website] "
  const AckSubject := "We received your message"

  /** The notification body: the sender's name and address and the sanitised
      message, all inserted as they are. */
  function NotificationHtml(v: Submission, sanitized: string): string {
    "<p>New message from " + (v.name + (" (" + (v.email + (")</p><p>" + (sanitized + "</p>")))))
  }

  /** The acknowledgement body: a greeting by name and the sanitised message
      echoed back, inserted as they are. */
  function AckHtml(v: Submission, sanitized: string): string {
    "<p>Hi " + (v.name + (",</p><p>Thanks for reaching out to Avuncular Group. Here's what you sent:</p><p>"
      + (sanitized + "</p><p>We\U{2019}ll reply shortly.</p>")))
  }

  /** The notification names the submitter and carries the message verbatim. */
  lemma NotificationCarriesSubmission(v: Submission, sanitized: string)
    ensures var html := NotificationHtml(v, sanitized);
      IsInfix(v.name, html) && IsInfix(v.email, html) && IsInfix(sanitized, html)
  {
    var tail := sanitized + "</p>";
    var afterEmail := ")</p><p>" + tail;
    var afterName := " (" + (v.email + afterEmail);
    InfixAtStart(v.name, afterName);
    InfixAfterPrefix(v.name, "<p>New message from ", v.name + afterName);
    InfixAtStart(v.email, afterEmail);
    InfixAfterPrefix(v.email, " (", v.email + afterEmail);
    InfixAfterPrefix(v.email, v.name, afterName);
    InfixAfterPrefix(v.email, "<p>New message from ", v.name + afterName);
    InfixAtStart(sanitized, "</p>");
    InfixAfterPrefix(sanitized, ")</p><p>", tail);
    InfixAfterPrefix(sanitized, v.email, afterEmail);
    InfixAfterPrefix(sanitized, " (", v.email + afterEmail);
    InfixAfterPrefix(sanitized, v.name, afterName);
    InfixAfterPrefix(sanitized, "<p>New message from ", v.name + afterName);
  }

  /** The acknowledgement greets the submitter and echoes the message verbatim. */
  lemma AckCarriesSubmission(v: Submission, sanitized: string)
    ensures var html := AckHtml(v, sanitized);
      IsInfix(v.name, html) && IsInfix(sanitized, html)
  {
    var tail := sanitized + "</p><p>We\U{2019}ll reply shortly.</p>";
    var afterName := ",</p><p>Thanks for reaching out to Avuncular Group. Here's what you sent:</p><p>" + tail;
    InfixAtStart(v.name, afterName);
    InfixAfterPrefix(v.name, "<p>Hi ", v.name + afterName);
    InfixAtStart(sanitized, "</p><p>We\U{2019}ll reply shortly.</p>");
    InfixAfterPrefix(sanitized, ",</p><p>Thanks for reaching out to Avuncular Group. Here's what you sent:</p><p>", tail);
    InfixAfterPrefix(sanitized, v.name, afterName);
    InfixAfterPrefix(sanitized, "<p>Hi ", v.name + afterName);
  }

  /** The two messages of the provider payload: a notification to the company
      inbox and an acknowledgement to the submitter. */
  function Compose(v: Submission, cfg: Config): (msgs: seq<OutboundMessage>)
    ensures |msgs| == 2
    ensures msgs[0].from == msgs[1].from == Address(cfg.fromEmail, cfg.fromName)
    ensures msgs[0].to == [Address(Inbox, "Avuncular Group")] && msgs[0].subject == "[Website] " + v.subject
    ensures msgs[1].to == [Address(v.email, v.name)] && msgs[1].subject == "We received your message"
    ensures msgs[0].htmlPart == NotificationHtml(v, Sanitize(v.message))
    ensures msgs[1].htmlPart == AckHtml(v, Sanitize(v.message))
  {
    var from := Address(cfg.fromEmail, cfg.fromName);
    var sanitized := Sanitize(v.message);
    [ OutboundMessage(from, [InboxAddress], SubjectPrefix + v.subject, NotificationHtml(v, sanitized)),
      OutboundMessage(from, [Address(v.email, v.name)], AckSubject, AckHtml(v, sanitized)) ]
  }

  /** What the composed payload holds: two messages from the configured
      sender, the first to the inbox under the prefixed subject, the second to
      the submitter under the fixed subject; the first body names the sender
      and both carry the sanitised message, all of it inserted unescaped. */
  lemma ComposeContents(v: Submission, cfg: Config)
    ensures var msgs := Compose(v, cfg);
      && |msgs| == 2
      && msgs[0].from == msgs[1].from == Address(cfg.fromEmail, cfg.fromName)
      && msgs[0].to == [Address(Inbox, "Avuncular Group")]
      && msgs[0].subject == "[Website] " + v.subject
      && msgs[1].to == [Address(v.email, v.name)]
      && msgs[1].subject == "We received your message"
      && IsInfix(v.name, msgs[0].htmlPart) && IsInfix(v.email, msgs[0].htmlPart)
      && IsInfix(Sanitize(v.message), msgs[0].htmlPart)
      && IsInfix(v.name, msgs[1].htmlPart) && IsInfix(Sanitize(v.message), msgs[1].htmlPart)
  {
    NotificationCarriesSubmission(v, Sanitize(v.message));
    AckCarriesSubmission(v, Sanitize(v.message));
  }

  // ---------------------------------------------------------------------------
  // The handler
  // ---------------------------------------------------------------------------

  /** The request body: text that is not JSON, or a parsed JSON value. */
  datatype RequestBody = Malformed | Parsed(json: Json)

  /** The provider's reply: an HTTP status with its text, or a fetch that threw. */
  datatype ProviderReply = Reply(status: int, text: string) | FetchThrew

  /** The one provider call: endpoint, Basic-auth credentials, messages. */
  datatype ProviderCall = ProviderCall(url: string, apiKey: string, apiSecret: string, messages: seq<OutboundMessage>)

  const SendUrl := "https://api.mailjet.com/v3.1/send"

  /** What can be thrown inside the handler's try block. */
  datatype Thrown = ValidationError | JsonSyntaxError | ProviderRequestFailed | NetworkError

  /** A server-side log line. */
  datatype LogEntry = ConfigMissingLog | ProviderErrorLog(status: int, text: string) | HandlerErrorLog(error: Thrown)

  datatype ResponseBody = OkTrue | ErrorMessage(error: string)

  datatype Response = Response(status: int, body: ResponseBody)

  /** The response together with the provider calls made and the lines logged. */
  datatype Handled = Handled(response: Response, calls: seq<ProviderCall>, log: seq<LogEntry>)

  const GenericError := "Unable to send message"
  const ConfigError := "Email configuration missing"

  /** A body that passes the server schema. */
  predicate PassesSchema(body: RequestBody, isEmail: EmailPredicate) {
    body.Parsed? && ServerParse(body.json, isEmail).Some?
  }

  /** The catch block: log, then 400 for a validation error and 500 otherwise. */
  function Caught(e: Thrown, calls: seq<ProviderCall>, log: seq<LogEntry>): (h: Handled)
    ensures h.response.body == ErrorMessage(GenericError)
    ensures h.response.status == 400 <==> e == ValidationError
    ensures h.response.status in {400, 500}
    ensures h.calls == calls && h.log == log + [HandlerErrorLog(e)]
  {
    Handled(Response(if e == ValidationError then 400 else 500, ErrorMessage(GenericError)), calls, log + [HandlerErrorLog(e)])
  }

  /** The dispatch step of a valid, configured request: one provider call
      carrying the two composed messages, then 200 on a 2xx reply and the
      generic 500 otherwise, with a provider error logged with its status and text. */
  function Deliver(v: Submission, cfg: Config, reply: ProviderReply): (h: Handled)
    ensures h.calls == [ProviderCall(SendUrl, cfg.apiKey, cfg.apiSecret, Compose(v, cfg))]
    ensures h.response.status == 200 <==> reply.Reply? && IsOk(reply.status)
    ensures h.response.status == 200 ==> h.response.body == OkTrue
    ensures h.response.status != 200 ==> h.response == Response(500, ErrorMessage(GenericError))
    ensures reply.Reply? && !IsOk(reply.status) ==> ProviderErrorLog(reply.status, reply.text) in h.log
  {
    var call := ProviderCall(SendUrl, cfg.apiKey, cfg.apiSecret, Compose(v, cfg));
    match reply
    case FetchThrew => Caught(NetworkError, [call], [])
    case Reply(status, text) =>
      if IsOk(status) then Handled(Response(200, OkTrue), [call], [])
      else Caught(ProviderRequestFailed, [call], [ProviderErrorLog(status, text)])
  }

  /** The POST handler. */
  function Post(body: RequestBody, env: Env, isEmail: EmailPredicate, reply: ProviderReply): (h: Handled)
    // validation failure, and only that, is 400, checked before configuration
    ensures h.response.status == 400 <==> body.Parsed? && ServerParse(body.json, isEmail).None?
    ensures h.response.status == 400 ==> h.response.body == ErrorMessage(GenericError) && h.calls == []
    // a body that is not JSON is not a validation error
    ensures body.Malformed? ==> h.response == Response(500, ErrorMessage(GenericError)) && h.calls == []
    // missing configuration on a valid body
    ensures PassesSchema(body, isEmail) && LoadConfig(env).None? ==>
              h.response == Response(500, ErrorMessage(ConfigError)) && h.calls == [] && h.log == [ConfigMissingLog]
    // the provider is called at most once, and exactly when body and configuration are good
    ensures |h.calls| <= 1
    ensures h.calls != [] <==> PassesSchema(body, isEmail) && LoadConfig(env).Some?
    ensures h.calls != [] ==>
              var cfg := LoadConfig(env).value;
              h.calls == [ProviderCall(SendUrl, cfg.apiKey, cfg.apiSecret, Compose(ServerParse(body.json, isEmail).value, cfg))]
    // success is 200 with ok: true, and only when the provider answered 2xx
    ensures h.response.status == 200 <==> h.calls != [] && reply.Reply? && IsOk(reply.status)
    ensures h.response.status == 200 ==> h.response.body == OkTrue
    ensures h.response.status != 200 ==> h.response.status in {400, 500} && h.response.body.ErrorMessage?
    ensures h.response.body == ErrorMessage(ConfigError) ==> h.response.status == 500 && h.calls == []
    // a provider error is logged with its status and text
    ensures h.calls != [] && reply.Reply? && !IsOk(reply.status) ==>
              h.response == Response(500, ErrorMessage(GenericError))
              && ProviderErrorLog(reply.status, reply.text) in h.log
    ensures h.calls != [] && reply.FetchThrew? ==> h.response == Response(500, ErrorMessage(GenericError))
  {
    match body
    case Malformed => Caught(JsonSyntaxError, [], [])
    case Parsed(j) =>
      match ServerParse(j, isEmail)
      case None => Caught(ValidationError, [], [])
      case Some(v) =>
        match LoadConfig(env)
        case None => Handled(Response(500, ErrorMessage(ConfigError)), [], [ConfigMissingLog])
        case Some(cfg) => Deliver(v, cfg, reply)
  }

  /** The delivered example: a valid submission with full configuration and a
      provider answering 200 gets 200, and the two messages go to the inbox
      under "[Website] Hi" and to the submitter. */
  lemma ExampleDelivered(isEmail: EmailPredicate, env: Env)
    requires isEmail("jo@example.com") && LoadConfig(env).Some?
    ensures var h := Post(Parsed(Encode(Submission("Jo Lee", "jo@example.com", "Hi", "Hello there"))), env, isEmail, Reply(200, ""));
      && h.response == Response(200, OkTrue)
      && |h.calls| == 1 && |h.calls[0].messages| == 2
      && h.calls[0].messages[0].to == [Address(Inbox, "Avuncular Group")]
      && h.calls[0].messages[0].subject == "[Website] " + "Hi"
      && h.calls[0].messages[1].to == [Address("jo@example.com", "Jo Lee")]
  {
    var v := Submission("Jo Lee", "jo@example.com", "Hi", "Hello there");
    DecodeEncode(v);
    assert ServerAccepts(v, isEmail);
    assert ServerParse(Encode(v), isEmail) == Some(v);
    var cfg := LoadConfig(env).value;
    var h := Post(Parsed(Encode(v)), env, isEmail, Reply(200, ""));
    assert h == Deliver(v, cfg, Reply(200, ""));
    assert h.calls[0].messages == Compose(v, cfg);
  }

  /** The rejected example: a short name, empty subject and message give 400
      without a provider call, whatever the configuration. */
  lemma ExampleRejected(isEmail: EmailPredicate, env: Env, reply: ProviderReply)
    ensures var h := Post(Parsed(Encode(Submission("A", "not-an-email", "", ""))), env, isEmail, reply);
      h.response == Response(400, ErrorMessage(GenericError)) && h.calls == []
  {
    DecodeEncode(Submission("A", "not-an-email", "", ""));
  }
}
