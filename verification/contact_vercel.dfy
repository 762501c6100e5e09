/**
 * The serverless TypeScript relay (api/contact.tsx): a method gate, a field
 * check, the e-mail shape test, one call to the provider's SDK, and the
 * mapping of its result. It has no configuration checks.
 */
module ContactVercel {
  import opened Wrappers
  import opened ContactCommon

  /** `CONTACT_TO_EMAIL` and `CONTACT_FROM_EMAIL`, read with non-null assertions and never checked. */
  datatype Env = Env(toEmail: Option<string>, fromEmail: Option<string>)

  /** The SDK's message record, with the reply address under the key `replyTo`. */
  datatype Message = Message(from: Option<string>, to: Option<string>, replyTo: string,
                             subject: string, text: string)

  /** How `resend.emails.send` ends: it throws, or returns a result that may carry `error`. */
  datatype SendResult = Threw | Returned(hasError: bool)

  /** The message for a checked form: the labelled lines joined, with no newline after the message. */
  function Compose(env: Env, f: Form): Message {
    var name, email, subject, message :=
      FieldText(f.name), FieldText(f.email), FieldText(f.subject), FieldText(f.message);
    Message(env.fromEmail, env.toEmail, email, ContactSubject(subject),
            JoinedText(name, email, subject, message))
  }

  /**
   * `handler(req, res)` with `req.body ?? {}` given as `body`: the response and
   * the message handed to the SDK, if the checks let one through.
   */
  function Handle(httpMethod: string, body: Option<Form>, env: Env, result: SendResult): (r: (Response, Option<Message>))
    ensures r.1.Some? ==> httpMethod == "POST" && AllTruthy(body.GetOr(EmptyForm)) &&
                          EmailShape(body.GetOr(EmptyForm).email.value)
    ensures r.0.reply == Ok <==> r.1.Some? && result == Returned(false)
    ensures r.0.reply == Ok ==> r.0.status == 200
  {
    if httpMethod != "POST" then (Response(405, Error("Method not allowed")), None)
    else
      var f := body.GetOr(EmptyForm);
      if !AllTruthy(f) then (Response(400, Error("Missing required fields")), None)
      else if !EmailShape(f.email.value) then (Response(400, Error("Invalid email")), None)
      else
        var reply := match result
          case Threw => Response(500, Error("Failed to send message"))
          case Returned(hasError) =>
            if hasError then Response(500, Error("Failed to send message")) else Response(200, Ok);
        (reply, Some(Compose(env, f)))
  }

  // ---------------------------------------------------------------- properties

  /** Any method but POST is refused with 405, whatever the body. */
  lemma MethodGate(httpMethod: string, body: Option<Form>, env: Env, result: SendResult)
    requires httpMethod != "POST"
    ensures Handle(httpMethod, body, env, result) == (Response(405, Error("Method not allowed")), None)
  {
  }

  /**
   * A missing body is `{}` and is refused as missing fields; a falsy field is
   * reported before the address shape is looked at.
   */
  lemma FieldsBeforeShape(body: Option<Form>, env: Env, result: SendResult)
    ensures body.None? ==>
              Handle("POST", body, env, result) == (Response(400, Error("Missing required fields")), None)
    ensures !AllTruthy(body.GetOr(EmptyForm)) ==>
              Handle("POST", body, env, result).0 == Response(400, Error("Missing required fields"))
  {
  }

  /** With all fields present, "Invalid email" is given exactly when the address fails the pattern. */
  lemma InvalidEmailExactly(f: Form, env: Env, result: SendResult)
    requires AllTruthy(f)
    ensures Handle("POST", Some(f), env, result).0 == Response(400, Error("Invalid email")) <==>
              !MatchesEmailPattern(f.email.value)
  {
    EmailShapeMatchesPattern(f.email.value);
  }

  /**
   * A message goes to the SDK exactly for a POST whose four fields are present
   * and whose address has the shape; the settings play no part.
   */
  lemma SendsExactly(httpMethod: string, body: Option<Form>, env: Env, result: SendResult)
    ensures Handle(httpMethod, body, env, result).1.Some? <==>
              httpMethod == "POST" && AllTruthy(body.GetOr(EmptyForm)) &&
              MatchesEmailPattern(body.GetOr(EmptyForm).email.value)
  {
    var f := body.GetOr(EmptyForm);
    if AllTruthy(f) {
      EmailShapeMatchesPattern(f.email.value);
    }
  }

  /** The message replies to the visitor, prefixes the subject, and ends the text with the message itself. */
  lemma MessageContents(f: Form, env: Env, result: SendResult)
    requires Handle("POST", Some(f), env, result).1.Some?
    ensures var m := Handle("POST", Some(f), env, result).1.value;
            && m.from == env.fromEmail && m.to == env.toEmail
            && m.replyTo == f.email.value
            && m.subject == "[Contact] " + f.subject.value
            && m.text == Header(f.name.value, f.email.value, f.subject.value) + f.message.value
  {
  }

  /** After a send, success is reported exactly when the SDK returned without an error. */
  lemma ResultMapping(httpMethod: string, body: Option<Form>, env: Env, result: SendResult)
    requires Handle(httpMethod, body, env, result).1.Some?
    ensures Handle(httpMethod, body, env, result).0 ==
              (if result == Returned(false) then Response(200, Ok) else Response(500, Error("Failed to send message")))
  {
  }

  /** `{ ok: true }` is given only after a send the SDK reported as clean. */
  lemma OkOnlyWhenClean(httpMethod: string, body: Option<Form>, env: Env, result: SendResult)
    ensures Handle(httpMethod, body, env, result).0.reply == Ok <==>
              Handle(httpMethod, body, env, result).1.Some? && result == Returned(false)
  {
  }
}
