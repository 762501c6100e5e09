/**
 * The framework API route relay (src/pages/api/contact.tsx): the same guard
 * chain as the serverless TypeScript relay, with the reply address under the
 * key `reply_to` and a send result that is never looked at.
 */
module ContactNext {
  import opened Wrappers
  import opened ContactCommon
  import ContactVercel

  /** The SDK's message record, with the reply address under the key `reply_to`. */
  datatype Message = Message(from: Option<string>, to: Option<string>, replyTo: string,
                             subject: string, text: string)

  /** The message for a checked form. */
  function Compose(env: ContactVercel.Env, f: Form): Message {
    var name, email, subject, message :=
      FieldText(f.name), FieldText(f.email), FieldText(f.subject), FieldText(f.message);
    Message(env.fromEmail, env.toEmail, email, ContactSubject(subject),
            JoinedText(name, email, subject, message))
  }

  /**
   * `handler(req, res)` with `req.body ?? {}` given as `body`: the response and
   * the message handed to the SDK, if the checks let one through.
   */
  function Handle(httpMethod: string, body: Option<Form>, env: ContactVercel.Env,
                  result: ContactVercel.SendResult): (r: (Response, Option<Message>))
    ensures r.1.Some? ==> httpMethod == "POST" && AllTruthy(body.GetOr(EmptyForm)) &&
                          EmailShape(body.GetOr(EmptyForm).email.value)
    ensures r.0.reply == Ok <==> r.1.Some? && result.Returned?
    ensures r.0.reply == Ok ==> r.0.status == 200
  {
    if httpMethod != "POST" then (Response(405, Error("Method not allowed")), None)
    else
      var f := body.GetOr(EmptyForm);
      if !AllTruthy(f) then (Response(400, Error("Missing required fields")), None)
      else if !EmailShape(f.email.value) then (Response(400, Error("Invalid email")), None)
      else
        var reply := if result.Threw? then Response(500, Error("Failed to send message")) else Response(200, Ok);
        (reply, Some(Compose(env, f)))
  }

  // ---------------------------------------------------------------- properties

  /** Any method but POST is refused with 405, whatever the body. */
  lemma MethodGate(httpMethod: string, body: Option<Form>, env: ContactVercel.Env, result: ContactVercel.SendResult)
    requires httpMethod != "POST"
    ensures Handle(httpMethod, body, env, result) == (Response(405, Error("Method not allowed")), None)
  {
  }

  /** A falsy field is refused before the address shape; a present field set is refused exactly for a bad address. */
  lemma Gates(body: Option<Form>, env: ContactVercel.Env, result: ContactVercel.SendResult)
    ensures !AllTruthy(body.GetOr(EmptyForm)) ==>
              Handle("POST", body, env, result) == (Response(400, Error("Missing required fields")), None)
    ensures AllTruthy(body.GetOr(EmptyForm)) ==>
              (Handle("POST", body, env, result).0 == Response(400, Error("Invalid email")) <==>
               !MatchesEmailPattern(body.GetOr(EmptyForm).email.value))
  {
    var f := body.GetOr(EmptyForm);
    if AllTruthy(f) {
      EmailShapeMatchesPattern(f.email.value);
    }
  }

  /** The message replies to the visitor, prefixes the subject, and ends the text with the message itself. */
  lemma MessageContents(f: Form, env: ContactVercel.Env, result: ContactVercel.SendResult)
    requires Handle("POST", Some(f), env, result).1.Some?
    ensures var m := Handle("POST", Some(f), env, result).1.value;
            && m.from == env.fromEmail && m.to == env.toEmail
            && m.replyTo == f.email.value
            && m.subject == "[Contact] " + f.subject.value
            && m.text == Header(f.name.value, f.email.value, f.subject.value) + f.message.value
  {
  }

  /** Any send that does not throw is reported as success, even one whose result carries an error. */
  lemma ResultIgnored(httpMethod: string, body: Option<Form>, env: ContactVercel.Env, result: ContactVercel.SendResult)
    requires Handle(httpMethod, body, env, result).1.Some?
    ensures result.Returned? ==> Handle(httpMethod, body, env, result).0 == Response(200, Ok)
    ensures result.Threw? ==> Handle(httpMethod, body, env, result).0 == Response(500, Error("Failed to send message"))
  {
  }

  /**
   * The two TypeScript relays send the same message (up to the reply key's
   * name) and give the same response, except that a result carrying an error
   * is a 500 in one and a 200 in the other.
   */
  lemma AgreesWithServerless(httpMethod: string, body: Option<Form>, env: ContactVercel.Env,
                             result: ContactVercel.SendResult)
    ensures var (r, m) := Handle(httpMethod, body, env, result);
            var (s, n) := ContactVercel.Handle(httpMethod, body, env, result);
            && m.Some? == n.Some?
            && (m.Some? ==> m.value.from == n.value.from && m.value.to == n.value.to &&
                            m.value.replyTo == n.value.replyTo && m.value.subject == n.value.subject &&
                            m.value.text == n.value.text)
            && (r == s <==> result != ContactVercel.Returned(true) || m.None?)
  {
  }
}
