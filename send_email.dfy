/** The `POST /send-email` pipeline (server.js:43-60 and 76-100): the API-key
    gate, the body check, the message handed to the mail transport, and the
    reply made from the transport's result. */
module SendEmail {
  import opened JsValues
  import opened Config
  import opened Auth

  /** What a request brings: its `x-api-key` header and its parsed JSON body. */
  datatype Request = Request(apiKeyHeader: Option<string>, body: JsVal)

  /** The four properties `const { to, subject, text, html } = req.body`
      takes out of the body. */
  datatype EmailFields = EmailFields(to: JsVal, subject: JsVal, text: JsVal, html: JsVal)

  /** The mail handed to `transporter.sendMail`. */
  datatype Message = Message(from: JsVal, to: JsVal, subject: JsVal, text: JsVal, html: JsVal)

  /** What the transport's promise settles to: fulfilled, or rejected with an
      error whose `message` property may be absent. */
  datatype SendResult = Sent | SendFailed(message: Option<string>)

  /** The JSON object written back: `{success: true}` or `{error, detail?}`
      (a `detail` that is `undefined` is dropped by JSON serialisation). */
  datatype ReplyBody = SuccessJson | ErrorJson(error: string, detail: Option<string>)

  datatype Reply = Reply(status: nat, body: ReplyBody)

  /** The decision made before the transport is touched. */
  datatype Verdict = ServerMisconfigured | Unauthorized | MissingEmailFields | Dispatch(msg: Message)

  /** A handled request: the reply, and every message given to the transport,
      in order. */
  datatype Handled = Handled(reply: Reply, sent: seq<Message>)

  /** Property lookup `body.name`: an own property of an object, `undefined`
      for an absent one and for an array body. */
  function Field(body: JsVal, name: string): (v: JsVal)
    ensures body.JObj? && name in body.fields ==> v == body.fields[name]
    ensures !body.JObj? || name !in body.fields ==> v == Undefined
  {
    match body
    case JObj(fields) => if name in fields then fields[name] else Undefined
    case _ => Undefined
  }

  function Destructure(body: JsVal): EmailFields {
    EmailFields(Field(body, "to"), Field(body, "subject"), Field(body, "text"), Field(body, "html"))
  }

  /** A mail can be sent: it has a recipient, a subject, and a plain-text or
      an HTML content. */
  predicate Complete(f: EmailFields) {
    Truthy(f.to) && Truthy(f.subject) && (Truthy(f.text) || Truthy(f.html))
  }

  /** The route's field check: the destructured fields when they make a
      complete mail, `None` (answered with 400) otherwise. */
  function Validate(body: JsVal): (r: Option<EmailFields>)
    ensures r.Some? <==> Complete(Destructure(body))
    ensures r.Some? ==> r.value == Destructure(body)
  {
    var f := Destructure(body);
    if !Truthy(f.to) || !Truthy(f.subject) || (!Truthy(f.text) && !Truthy(f.html)) then None
    else Some(f)
  }

  /** The message built from the checked fields: the configured sender and
      the body's four fields, passed on unchanged. */
  function BuildMessage(env: Env, f: EmailFields): (m: Message)
    ensures m.to == f.to && m.subject == f.subject && m.text == f.text && m.html == f.html
    ensures IsSet(env.fromEmail) ==> m.from == JStr(env.fromEmail.value)
    ensures !IsSet(env.fromEmail) ==> m.from == FromOpt(env.gmailUser)
  {
    Message(SenderAddress(env), f.to, f.subject, f.text, f.html)
  }

  /** The gate, then the body check. The key is judged first and the body
      only once the key has passed; a message is produced only when both
      pass. */
  function Classify(env: Env, req: Request): (v: Verdict)
    ensures v.ServerMisconfigured? <==> !IsSet(env.emailApiKey)
    ensures v.Unauthorized? <==> IsSet(env.emailApiKey) && req.apiKeyHeader != env.emailApiKey
    ensures v.MissingEmailFields? <==>
              IsSet(env.emailApiKey) && req.apiKeyHeader == env.emailApiKey && !Complete(Destructure(req.body))
    ensures v.Dispatch? <==>
              IsSet(env.emailApiKey) && req.apiKeyHeader == env.emailApiKey && Complete(Destructure(req.body))
    ensures v.Dispatch? ==>
              v.msg.to == Field(req.body, "to") && v.msg.subject == Field(req.body, "subject")
              && v.msg.text == Field(req.body, "text") && v.msg.html == Field(req.body, "html")
    ensures v.Dispatch? && IsSet(env.fromEmail) ==> v.msg.from == JStr(env.fromEmail.value)
    ensures v.Dispatch? && !IsSet(env.fromEmail) ==> v.msg.from == FromOpt(env.gmailUser)
  {
    match AuthGate(env.emailApiKey, req.apiKeyHeader)
    case Misconfigured => ServerMisconfigured
    case Denied => Unauthorized
    case Pass =>
      match Validate(req.body)
      case None => MissingEmailFields
      case Some(f) => Dispatch(BuildMessage(env, f))
  }

  /** The reply to a request stopped before dispatch. */
  function Reject(v: Verdict): (r: Reply)
    requires !v.Dispatch?
    ensures v.ServerMisconfigured? ==> r.status == 500 && r.body == ErrorJson("Server misconfigured", Some("EMAIL_API_KEY not loaded"))
    ensures v.Unauthorized? ==> r.status == 401 && r.body == ErrorJson("Unauthorized", None)
    ensures v.MissingEmailFields? ==> r.status == 400 && r.body == ErrorJson("Missing email fields", None)
  {
    match v
    case ServerMisconfigured => Reply(500, ErrorJson("Server misconfigured", Some("EMAIL_API_KEY not loaded")))
    case Unauthorized => Reply(401, ErrorJson("Unauthorized", None))
    case MissingEmailFields => Reply(400, ErrorJson("Missing email fields", None))
  }

  /** The reply made from the transport's result: 200 `{success: true}` on
      success, 500 "Email send failed" with the error's message verbatim as
      `detail` on failure. */
  function Outcome(s: SendResult): (r: Reply)
    ensures r.status == 200 <==> s.Sent?
    ensures s.Sent? ==> r.body == SuccessJson
    ensures s.SendFailed? ==> r.status == 500 && r.body == ErrorJson("Email send failed", s.message)
  {
    match s
    case Sent => Reply(200, SuccessJson)
    case SendFailed(message) => Reply(500, ErrorJson("Email send failed", message))
  }

  /** A whole request. `transport` stands for `transporter.sendMail`: it is
      called with the dispatched message, once, and only when the request
      has passed both checks; its result alone decides the reply. */
  function Handle(env: Env, req: Request, transport: Message -> SendResult): (h: Handled)
    ensures |h.sent| <= 1
    ensures h.sent != [] <==> Classify(env, req).Dispatch?
    ensures h.sent != [] ==> h.sent == [Classify(env, req).msg] && h.reply == Outcome(transport(h.sent[0]))
    ensures h.sent == [] ==> h.reply == Reject(Classify(env, req))
  {
    match Classify(env, req)
    case Dispatch(m) => Handled(Outcome(transport(m)), [m])
    case v => Handled(Reject(v), [])
  }

  /** Every reply is one of the four the service writes, and each status
      means one thing. */
  lemma ReplyStatuses(env: Env, req: Request, transport: Message -> SendResult)
    ensures var h := Handle(env, req, transport);
            h.reply.status in {200, 400, 401, 500}
            && (h.reply.status == 200 <==> h.sent != [] && transport(h.sent[0]).Sent?)
            && (h.reply.status == 401 <==> Classify(env, req).Unauthorized?)
            && (h.reply.status == 400 <==> Classify(env, req).MissingEmailFields?)
  {
  }

  /** Without a usable EMAIL_API_KEY every request, whatever its header and
      body, is answered 500 "Server misconfigured" and nothing is sent. */
  lemma MisconfiguredAnswersEverything(env: Env, req: Request, transport: Message -> SendResult)
    requires !IsSet(env.emailApiKey)
    ensures Handle(env, req, transport)
            == Handled(Reply(500, ErrorJson("Server misconfigured", Some("EMAIL_API_KEY not loaded"))), [])
  {
  }

  /** A request whose header is not the configured key is answered 401
      whatever its body holds, so a bad key with a bad body gives 401,
      never 400, and the transport is not used. */
  lemma AuthBeforeValidation(env: Env, header: Option<string>, body1: JsVal, body2: JsVal,
                             t1: Message -> SendResult, t2: Message -> SendResult)
    requires IsSet(env.emailApiKey) && header != env.emailApiKey
    ensures Handle(env, Request(header, body1), t1) == Handle(env, Request(header, body2), t2)
    ensures Handle(env, Request(header, body1), t1) == Handled(Reply(401, ErrorJson("Unauthorized", None)), [])
  {
  }

  /** An authenticated request gets 400 exactly when `to` or `subject` is
      falsy, or both `text` and `html` are. */
  lemma BadRequestExactly(env: Env, req: Request, transport: Message -> SendResult)
    requires IsSet(env.emailApiKey) && req.apiKeyHeader == env.emailApiKey
    ensures var f := Destructure(req.body);
            Handle(env, req, transport).reply.status == 400
            <==> !Truthy(f.to) || !Truthy(f.subject) || (!Truthy(f.text) && !Truthy(f.html))
  {
  }

  /** The reply does not depend on the transport unless the request was
      dispatched: a rejected request never reaches it. */
  lemma TransportUnusedUnlessDispatched(env: Env, req: Request, t1: Message -> SendResult, t2: Message -> SendResult)
    requires !Classify(env, req).Dispatch?
    ensures Handle(env, req, t1) == Handle(env, req, t2)
    ensures Handle(env, req, t1).sent == []
  {
  }

  /** The body's other properties play no part: two bodies that agree on
      `to`, `subject`, `text` and `html` are handled alike. */
  lemma OnlyFourFieldsMatter(env: Env, header: Option<string>, body1: JsVal, body2: JsVal,
                             transport: Message -> SendResult)
    requires Destructure(body1) == Destructure(body2)
    ensures Handle(env, Request(header, body1), transport) == Handle(env, Request(header, body2), transport)
  {
  }

  /** Either of `text` and `html` suffices; an array body never passes. */
  lemma ValidationExamples()
    ensures Validate(JObj(map["to" := JStr("a@example.com"), "subject" := JStr("Hi"), "html" := JStr("<p>hi</p>")])).Some?
    ensures Validate(JObj(map["to" := JStr("a@example.com"), "subject" := JStr("Hi"), "text" := JStr("hello")])).Some?
    ensures Validate(JObj(map["to" := JStr("a@example.com"), "subject" := JStr("Hi"), "text" := JStr("")])).None?
    ensures Validate(JObj(map["to" := JStr("a@example.com"), "subject" := JNum(0.0), "text" := JStr("x")])).None?
    ensures Validate(JArr([JStr("a@example.com")])).None?
  {
  }

  /** An authenticated request for "a@example.com" with subject "Hi" and text
      "hello", sent by a transport that succeeds, is answered 200
      `{success: true}`; the one message sent comes from the Gmail account
      when FROM_EMAIL is unset. */
  lemma SuccessfulSend()
    ensures var env := Env(Some("k3y"), Some("me@gmail.com"), Some("app-pass"), None);
            var body := JObj(map["to" := JStr("a@example.com"), "subject" := JStr("Hi"), "text" := JStr("hello")]);
            var h := Handle(env, Request(Some("k3y"), body), _ => Sent);
            h.reply == Reply(200, SuccessJson)
            && h.sent == [Message(JStr("me@gmail.com"), JStr("a@example.com"), JStr("Hi"), JStr("hello"), Undefined)]
  {
  }
}
