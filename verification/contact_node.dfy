/**
 * The plain Node relay (api/contact.js): a method gate, two configuration
 * checks, body decoding, a field check, one REST request to the e-mail
 * provider, and the mapping of the provider's answer to a status and JSON
 * body written on the Node response object.
 */
module ContactNode {
  import opened Wrappers
  import opened ContactCommon
  import ContactVercel

  /** `RESEND_API_KEY`, `CONTACT_TO_EMAIL` and `CONTACT_FROM_EMAIL`; `None` is unset. */
  datatype Config = Config(apiKey: Option<string>, toEmail: Option<string>, fromEmail: Option<string>)

  const DefaultSender := "Leak Detector Contact <onboarding@resend.dev>"
  const JsonType := "application/json"

  /** What `JSON.parse` makes of the raw request text: `None` is `null` or a non-object value. */
  datatype Parsed = Malformed | Decoded(value: Option<Form>)

  /**
   * How iterating the request stream ends once its chunks are read: normally,
   * or with an exception carrying an optional message.
   */
  datatype StreamEnd = Ended | Failed(error: Option<string>)

  /**
   * The incoming request: its method, the body a platform already decoded
   * (`None` when `req.body` is absent or falsy), the raw chunks of the
   * request stream and how the stream ends.
   */
  datatype Request = Request(httpMethod: string, body: Option<Form>, chunks: seq<seq<bv8>>, end: StreamEnd)

  /** The handler has to read the stream (no decoded body) and the read throws. */
  predicate StreamFails(req: Request) {
    req.body.None? && req.end.Failed?
  }

  /** The JSON payload posted to the provider, with its bearer authorization. */
  datatype Payload = Payload(authorization: string, from: string, to: seq<string>,
                             replyTo: string, subject: string, text: string)

  /**
   * How the provider call ends: an answer (its `ok` flag, its status, the
   * `message` of its JSON body and that body serialised; an unreadable body
   * reads as `{}`), or an exception with its optional message.
   */
  datatype Outcome =
    | Answered(ok: bool, status: int, message: Option<string>, serialized: string)
    | Threw(error: Option<string>)

  /** What ends up on the response: status, whether the JSON content type was set, the body. */
  datatype Written = Written(status: int, jsonHeader: bool, reply: Reply)

  /** `CONTACT_FROM_EMAIL || 'Leak Detector Contact <onboarding@resend.dev>'`. */
  function Sender(c: Config): (r: string)
    ensures Truthy(c.fromEmail) ==> r == c.fromEmail.value
    ensures !Truthy(c.fromEmail) ==> r == DefaultSender
  {
    if Truthy(c.fromEmail) then c.fromEmail.value else DefaultSender
  }

  /** `Buffer.concat(chunks)`: the chunks' bytes in order. */
  function Concat(chunks: seq<seq<bv8>>): (r: seq<bv8>)
    ensures chunks == [] ==> r == []
  {
    if chunks == [] then [] else Concat(chunks[..|chunks| - 1]) + chunks[|chunks| - 1]
  }

  /** How the stream is cut into chunks does not matter: concatenation is additive. */
  lemma {:induction false} ConcatAppend(a: seq<seq<bv8>>, b: seq<seq<bv8>>)
    ensures Concat(a + b) == Concat(a) + Concat(b)
    decreases |b|
  {
    if b == [] {
      assert a + b == a;
    } else {
      var front := b[..|b| - 1];
      assert (a + b)[..|a + b| - 1] == a + front;
      assert (a + b)[|a + b| - 1] == b[|b| - 1];
      ConcatAppend(a, front);
    }
  }

  /**
   * The form the handler reads its fields from: `req.body` when present,
   * otherwise the parsed stream, with `{}` for a parse failure or a non-object.
   */
  function BodyForm(req: Request, parse: seq<bv8> -> Parsed): (f: Form)
    ensures req.body.Some? ==> f == req.body.value
    ensures req.body.None? && parse(Concat(req.chunks)).Malformed? ==> f == EmptyForm
  {
    if req.body.Some? then req.body.value
    else match parse(Concat(req.chunks))
      case Malformed => EmptyForm
      case Decoded(v) => v.GetOr(EmptyForm)
  }

  /** The REST payload for a checked configuration and form. */
  function MakePayload(c: Config, f: Form): Payload {
    var name, email, subject, message :=
      FieldText(f.name), FieldText(f.email), FieldText(f.subject), FieldText(f.message);
    Payload("Bearer " + FieldText(c.apiKey), Sender(c), [FieldText(c.toEmail)], email,
            ContactSubject(subject), Header(name, email, subject) + message + "\n")
  }

  /** The `catch` branch: 500 with the JSON type and the error's message or "Unexpected error". */
  function Crash(error: Option<string>): Written {
    Written(500, true, Error(if Truthy(error) then error.value else "Unexpected error"))
  }

  /** The response for the provider's outcome. */
  function Answer(o: Outcome): (w: Written)
    ensures w.reply == Ok <==> o.Answered? && o.ok
    ensures w.reply == Ok ==> w.status == 200 && w.jsonHeader
    ensures o.Threw? ==> w.status == 500 && w.jsonHeader
  {
    match o
    case Answered(ok, status, message, serialized) =>
      if !ok then
        Written(if status != 0 then status else 502, false,
                Error(if Truthy(message) then message.value else serialized))
      else Written(200, true, Ok)
    case Threw(error) => Crash(error)
  }

  /** The handler as one guard chain: the response and the payload, if one was posted. */
  function Relay(req: Request, c: Config, parse: seq<bv8> -> Parsed, o: Outcome): (r: (Written, Option<Payload>))
    ensures r.1.Some? ==> req.httpMethod == "POST" && Truthy(c.apiKey) && Truthy(c.toEmail) &&
                          !StreamFails(req) && AllTruthy(BodyForm(req, parse))
    ensures r.0.reply == Ok ==> r.1.Some? && r.0.status == 200
  {
    if req.httpMethod != "POST" then
      (Written(405, true, Error("Method not allowed (use POST)")), None)
    else if !Truthy(c.apiKey) then
      (Written(500, false, Error("Missing RESEND_API_KEY env var")), None)
    else if !Truthy(c.toEmail) then
      (Written(500, false, Error("Missing CONTACT_TO_EMAIL env var")), None)
    else if StreamFails(req) then
      (Crash(req.end.error), None)
    else
      var f := BodyForm(req, parse);
      if !AllTruthy(f) then
        (Written(400, false, Error("Missing fields: name, email, subject, message")), None)
      else
        (Answer(o), Some(MakePayload(c, f)))
  }

  /** The Node response object the handler writes to. */
  class ServerResponse {
    var statusCode: int
    var contentType: Option<string>
    /** What `end` was called with; `None` until then. */
    var body: Option<Reply>

    constructor()
      ensures statusCode == 200 && contentType == None && body == None
    {
      statusCode := 200;
      contentType := None;
      body := None;
    }

    /** `res.setHeader('Content-Type', 'application/json')`. */
    method SetJsonHeader()
      modifies this
      ensures contentType == Some(JsonType)
      ensures statusCode == old(statusCode) && body == old(body)
    {
      contentType := Some(JsonType);
    }

    /** `res.end(JSON.stringify(reply))`. */
    method End(reply: Reply)
      modifies this
      ensures body == Some(reply)
      ensures statusCode == old(statusCode) && contentType == old(contentType)
    {
      body := Some(reply);
    }

    /** The response as written, once ended. */
    function Snapshot(): Written
      reads this
      requires body.Some?
    {
      Written(statusCode, contentType == Some(JsonType), body.value)
    }
  }

  /**
   * The body the handler reads: `req.body` when present, otherwise the
   * request stream gathered chunk by chunk and parsed, `{}` when parsing
   * fails. `failed` reports a stream that threw while being read.
   */
  method ReadBody(req: Request, parse: seq<bv8> -> Parsed) returns (form: Form, failed: bool)
    ensures failed == StreamFails(req)
    ensures !failed ==> form == BodyForm(req, parse)
  {
    if req.body.Some? {
      return req.body.value, false;
    }
    var chunks: seq<seq<bv8>> := [];
    for i := 0 to |req.chunks|
      invariant chunks == req.chunks[..i]
    {
      chunks := chunks + [req.chunks[i]];
    }
    if req.end.Failed? {
      return EmptyForm, true;
    }
    failed := false;
    assert chunks == req.chunks;
    var parsed := parse(Concat(chunks));
    form := if parsed.Decoded? && parsed.value.Some? then parsed.value.value else EmptyForm;
  }

  /**
   * `handler(req, res)`, step by step on `res`. It writes exactly what `Relay`
   * describes and returns the payload it posted.
   */
  method Handle(req: Request, c: Config, parse: seq<bv8> -> Parsed, o: Outcome, res: ServerResponse)
    returns (sent: Option<Payload>)
    requires res.contentType == None && res.body == None
    modifies res
    ensures res.body.Some?
    ensures res.Snapshot() == Relay(req, c, parse, o).0
    ensures sent == Relay(req, c, parse, o).1
  {
    sent := None;
    if req.httpMethod != "POST" {
      res.statusCode := 405;
      res.SetJsonHeader();
      res.End(Error("Method not allowed (use POST)"));
      return;
    }
    var from := if Truthy(c.fromEmail) then c.fromEmail.value else DefaultSender;
    if !Truthy(c.apiKey) {
      res.statusCode := 500;
      res.End(Error("Missing RESEND_API_KEY env var"));
      return;
    }
    if !Truthy(c.toEmail) {
      res.statusCode := 500;
      res.End(Error("Missing CONTACT_TO_EMAIL env var"));
      return;
    }
    var form, failed := ReadBody(req, parse);
    if failed {
      res.statusCode := 500;
      res.SetJsonHeader();
      res.End(Error(if Truthy(req.end.error) then req.end.error.value else "Unexpected error"));
      return;
    }
    if !AllTruthy(form) {
      res.statusCode := 400;
      res.End(Error("Missing fields: name, email, subject, message"));
      return;
    }
    var name, email, subject, message :=
      form.name.value, form.email.value, form.subject.value, form.message.value;
    sent := Some(Payload("Bearer " + c.apiKey.value, from, [c.toEmail.value], email,
                         ContactSubject(subject), Header(name, email, subject) + message + "\n"));
    assert sent == Some(MakePayload(c, form));
    assert Relay(req, c, parse, o) == (Answer(o), sent);
    match o
    case Threw(error) =>
      res.statusCode := 500;
      res.SetJsonHeader();
      res.End(Error(if Truthy(error) then error.value else "Unexpected error"));
    case Answered(ok, status, msg, serialized) =>
      if !ok {
        res.statusCode := if status != 0 then status else 502;
        res.End(Error(if Truthy(msg) then msg.value else serialized));
        return;
      }
      res.statusCode := 200;
      res.SetJsonHeader();
      res.End(Ok);
  }

  // ---------------------------------------------------------------- properties

  /** Any method but POST is refused with 405 before configuration or body are looked at. */
  lemma MethodGate(req: Request, c: Config, parse: seq<bv8> -> Parsed, o: Outcome)
    requires req.httpMethod != "POST"
    ensures Relay(req, c, parse, o) == (Written(405, true, Error("Method not allowed (use POST)")), None)
  {
  }

  /**
   * A missing API key gives 500 whatever the recipient setting and the body;
   * a missing recipient with a key present gives the other 500. Neither posts.
   */
  lemma ConfigChecked(req: Request, c: Config, parse: seq<bv8> -> Parsed, o: Outcome)
    requires req.httpMethod == "POST"
    ensures !Truthy(c.apiKey) ==>
              Relay(req, c, parse, o) == (Written(500, false, Error("Missing RESEND_API_KEY env var")), None)
    ensures Truthy(c.apiKey) && !Truthy(c.toEmail) ==>
              Relay(req, c, parse, o) == (Written(500, false, Error("Missing CONTACT_TO_EMAIL env var")), None)
  {
  }

  /**
   * A payload is posted exactly when the method and both settings pass, the
   * body is read without an exception and all four fields are present.
   */
  lemma PostsExactlyWhenChecksPass(req: Request, c: Config, parse: seq<bv8> -> Parsed, o: Outcome)
    ensures Relay(req, c, parse, o).1.Some? <==>
              req.httpMethod == "POST" && Truthy(c.apiKey) && Truthy(c.toEmail) && !StreamFails(req) &&
              AllTruthy(BodyForm(req, parse))
    ensures req.httpMethod == "POST" && Truthy(c.apiKey) && Truthy(c.toEmail) && !StreamFails(req) &&
            !AllTruthy(BodyForm(req, parse)) ==>
              Relay(req, c, parse, o).0 == Written(400, false, Error("Missing fields: name, email, subject, message"))
  {
  }

  /** An unparsable body with no decoded body reads as `{}` and is refused with 400. */
  lemma MalformedBodyRefused(req: Request, c: Config, parse: seq<bv8> -> Parsed, o: Outcome)
    requires req.httpMethod == "POST" && Truthy(c.apiKey) && Truthy(c.toEmail)
    requires req.body.None? && req.end == Ended && parse(Concat(req.chunks)).Malformed?
    ensures Relay(req, c, parse, o) == (Written(400, false, Error("Missing fields: name, email, subject, message")), None)
  {
  }

  /**
   * A request stream that throws while it is read lands in the `catch`: 500
   * with the JSON type and the error's message, and nothing is posted.
   */
  lemma StreamFailureRefused(req: Request, c: Config, parse: seq<bv8> -> Parsed, o: Outcome)
    requires req.httpMethod == "POST" && Truthy(c.apiKey) && Truthy(c.toEmail)
    requires req.body.None? && req.end.Failed?
    ensures Relay(req, c, parse, o).1 == None
    ensures Relay(req, c, parse, o).0 ==
              Written(500, true, Error(if Truthy(req.end.error) then req.end.error.value else "Unexpected error"))
  {
  }

  /**
   * The posted payload: addressed to the configured recipient from the
   * configured or default sender, replying to the visitor, with the prefixed
   * subject and the labelled text ending in the message and a newline.
   */
  lemma PayloadContents(req: Request, c: Config, parse: seq<bv8> -> Parsed, o: Outcome)
    requires Relay(req, c, parse, o).1.Some?
    ensures var p := Relay(req, c, parse, o).1.value;
            var f := BodyForm(req, parse);
            && p.authorization == "Bearer " + c.apiKey.value
            && p.from == (if Truthy(c.fromEmail) then c.fromEmail.value else DefaultSender)
            && p.to == [c.toEmail.value]
            && p.replyTo == f.email.value
            && p.subject == "[Contact] " + f.subject.value
            && p.text == JoinedText(f.name.value, f.email.value, f.subject.value, f.message.value) + "\n"
  {
    var f := BodyForm(req, parse);
  }

  /**
   * A refused provider answer passes its status through (502 for status 0)
   * and never reports success; an accepted one gives 200 `{ ok: true }`; an
   * exception gives 500 with its message or "Unexpected error".
   */
  lemma ProviderOutcomes(req: Request, c: Config, parse: seq<bv8> -> Parsed, o: Outcome)
    requires Relay(req, c, parse, o).1.Some?
    ensures o.Answered? && !o.ok ==>
              Relay(req, c, parse, o).0.status == (if o.status != 0 then o.status else 502) &&
              Relay(req, c, parse, o).0.reply != Ok
    ensures o.Answered? && o.ok ==> Relay(req, c, parse, o).0 == Written(200, true, Ok)
    ensures o.Threw? ==>
              Relay(req, c, parse, o).0 == Written(500, true, Error(if Truthy(o.error) then o.error.value else "Unexpected error"))
  {
  }

  /** Success is reported only for a posted payload the provider accepted. */
  lemma OkOnlyWhenAccepted(req: Request, c: Config, parse: seq<bv8> -> Parsed, o: Outcome)
    ensures Relay(req, c, parse, o).0.reply == Ok <==>
              Relay(req, c, parse, o).1.Some? && o.Answered? && o.ok
  {
  }

  /** Whitespace-only fields pass: there is no trimming and no address check. */
  lemma BlankLookingFieldsPass(c: Config, parse: seq<bv8> -> Parsed, o: Outcome)
    requires Truthy(c.apiKey) && Truthy(c.toEmail)
    ensures var req := Request("POST", Some(Form(Some(" "), Some(" "), Some(" "), Some(" "))), [], Ended);
            Relay(req, c, parse, o).1.Some?
  {
  }

  /**
   * For the same four fields, this relay's text is the TypeScript relays'
   * newline-joined text with one more newline at the end.
   */
  lemma TextIsJoinedTextWithNewline(req: Request, c: Config, parse: seq<bv8> -> Parsed, o: Outcome,
                                    env: ContactVercel.Env)
    requires Relay(req, c, parse, o).1.Some?
    ensures Relay(req, c, parse, o).1.value.text == ContactVercel.Compose(env, BodyForm(req, parse)).text + "\n"
  {
    var f := BodyForm(req, parse);
  }
}
