/**
 * The contact-form endpoint: checks in a fixed order (method, configuration,
 * fields), then composes one e-mail from the trimmed fields and relays it to
 * the e-mail provider, whose answer is an input of the model.
 */
module ContactApi {
  import opened Wrappers
  import opened JsString
  import opened Http

  /** The environment: `RESEND_API_KEY`, `CONTACT_EMAIL`, `SENDER_EMAIL`. */
  datatype Config = Config(apiKey: Option<string>, toEmail: Option<string>, fromEmail: Option<string>)

  /** The request, its JSON body already decoded into the three optional fields. */
  datatype ContactRequest = ContactRequest(verb: string, name: Option<string>, email: Option<string>, message: Option<string>)

  /** What is handed to the provider's `emails.send`. */
  datatype Email = Email(from: Option<string>, to: string, replyTo: string, subject: string, text: string, html: string)

  /** The provider's answer: `{ data }`, `{ error }`, or a thrown exception. */
  datatype SendOutcome = Delivered(id: Option<string>) | ProviderError(message: Option<string>) | Threw

  /** A JavaScript string is truthy when present and non-empty. */
  predicate Truthy(v: Option<string>) {
    v.Some? && v.value != ""
  }

  /** `!x?.trim()`: the field is missing or blank. */
  predicate Missing(v: Option<string>) {
    v.None? || Trim(v.value) == ""
  }

  /** `s.replace(/\n/g, '<br>')`. */
  function LineBreaks(s: string): (r: string)
    ensures |r| >= |s|
  {
    if s == [] then ""
    else (if s[0] == '\n' then "<br>" else [s[0]]) + LineBreaks(s[1..])
  }

  /** The replacement works piece by piece: it distributes over concatenation. */
  lemma {:induction false} LineBreaksAppend(a: string, b: string)
    ensures LineBreaks(a + b) == LineBreaks(a) + LineBreaks(b)
  {
    if a == [] {
      assert a + b == b;
    } else {
      assert (a + b)[1..] == a[1..] + b;
      LineBreaksAppend(a[1..], b);
    }
  }

  /** No newline survives the replacement. */
  lemma {:induction false} LineBreaksNoNewline(s: string)
    ensures '\n' !in LineBreaks(s)
  {
    if s != [] {
      LineBreaksNoNewline(s[1..]);
      var head := if s[0] == '\n' then "<br>" else [s[0]];
      assert '\n' !in head;
      assert LineBreaks(s) == head + LineBreaks(s[1..]);
    }
  }

  /** A newline becomes `<br>`; the rest is replaced as before. */
  lemma LineBreaksNewline(s: string)
    ensures LineBreaks("\n" + s) == "<br>" + LineBreaks(s)
  {
    assert ("\n" + s)[1..] == s;
  }

  /** Text without newlines passes through unchanged. */
  lemma {:induction false} LineBreaksPlain(s: string)
    requires '\n' !in s
    ensures LineBreaks(s) == s
  {
    if s != [] {
      assert s[0] != '\n';
      assert forall c | c in s[1..] :: c in s;
      LineBreaksPlain(s[1..]);
      assert [s[0]] + s[1..] == s;
    }
  }

  /** Every newline becomes the four characters `<br>`; nothing else changes length. */
  lemma {:induction false} LineBreaksLength(s: string)
    ensures |LineBreaks(s)| == |s| + 3 * multiset(s)['\n']
  {
    if s != [] {
      LineBreaksLength(s[1..]);
      assert s == [s[0]] + s[1..];
      assert multiset(s) == multiset{s[0]} + multiset(s[1..]);
    }
  }

  const SubjectPrefix := "Portfolio contact from "

  function Subject(name: string): string {
    SubjectPrefix + Trim(name)
  }

  function PlainText(name: string, email: string, message: string): string {
    Trim(message) + "\n\n---\nFrom: " + Trim(name) + "\nEmail: " + Trim(email)
  }

  function Html(name: string, email: string, message: string): string {
    "<p>" + LineBreaks(Trim(message)) + "</p><hr><p><strong>From:</strong> " + Trim(name)
      + "<br><strong>Email:</strong> " + Trim(email) + "</p>"
  }

  /** The e-mail built from the three fields. */
  function Compose(config: Config, to: string, name: string, email: string, message: string): Email {
    Email(config.fromEmail, to, Trim(email), Subject(name), PlainText(name, email, message), Html(name, email, message))
  }

  /**
   * The handler: the response, and the e-mail handed to the provider (if
   * any). `outcome` is what the provider answers when it is called.
   */
  function Handler(req: ContactRequest, config: Config, outcome: SendOutcome): (r: (Response, Option<Email>))
    ensures req.verb != "POST" ==>
              r == (Response(405, map["Allow" := "POST"], ErrorJson("Method not allowed")), None)
    ensures req.verb == "POST" && !(Truthy(config.apiKey) && Truthy(config.toEmail)) ==>
              r == (Response(500, map[], ErrorJson("Contact form not configured")), None)
    ensures req.verb == "POST" && Truthy(config.apiKey) && Truthy(config.toEmail)
            && (Missing(req.name) || Missing(req.email) || Missing(req.message)) ==>
              r == (Response(400, map[], ErrorJson("Name, email, and message are required")), None)
    ensures r.1.Some? ==> r.1.value.to == config.toEmail.value && r.1.value.from == config.fromEmail
    ensures r.1.Some? ==> r.1.value.subject == Subject(req.name.value)
                          && r.1.value.replyTo == Trim(req.email.value)
                          && r.1.value.text == PlainText(req.name.value, req.email.value, req.message.value)
                          && r.1.value.html == Html(req.name.value, req.email.value, req.message.value)
    ensures r.0.status == 200 <==> r.1.Some? && outcome.Delivered?
    ensures r.1.Some? && outcome.Delivered? ==> r.0.payload == OkWithId(outcome.id)
    ensures r.1.Some? && !outcome.Delivered? ==> r.0.status == 500
    ensures r.1.Some? && outcome.Threw? ==> r.0 == Response(500, map[], ErrorJson("Failed to send message"))
  {
    if req.verb != "POST" then
      (Response(405, map["Allow" := "POST"], ErrorJson("Method not allowed")), None)
    else if !Truthy(config.apiKey) || !Truthy(config.toEmail) then
      (Response(500, map[], ErrorJson("Contact form not configured")), None)
    else if Missing(req.name) || Missing(req.email) || Missing(req.message) then
      (Response(400, map[], ErrorJson("Name, email, and message are required")), None)
    else
      var mail := Compose(config, config.toEmail.value, req.name.value, req.email.value, req.message.value);
      var res := match outcome
        case Delivered(id) => Response(200, map[], OkWithId(id))
        case ProviderError(m) => Response(500, map[], ErrorJson(if Truthy(m) then m.value else "Failed to send email"))
        case Threw => Response(500, map[], ErrorJson("Failed to send message"));
      (res, Some(mail))
  }

  /**
   * An e-mail goes to the provider exactly when the request is a POST, the
   * endpoint is configured and all three fields are non-blank.
   */
  lemma SendsIffValid(req: ContactRequest, config: Config, outcome: SendOutcome)
    ensures Handler(req, config, outcome).1.Some? <==>
      && req.verb == "POST" && Truthy(config.apiKey) && Truthy(config.toEmail)
      && !Missing(req.name) && !Missing(req.email) && !Missing(req.message)
  {
  }

  /** The provider's own message is passed on when it has one; otherwise the fixed text. */
  lemma ProviderErrorMessage(req: ContactRequest, config: Config, m: Option<string>)
    requires Handler(req, config, ProviderError(m)).1.Some?
    ensures Handler(req, config, ProviderError(m)).0.payload
            == ErrorJson(if Truthy(m) then m.value else "Failed to send email")
  {
  }

  /** A sample request with an empty name is refused with 400, before any e-mail is sent. */
  lemma EmptyNameIsRefused(config: Config, outcome: SendOutcome)
    requires Truthy(config.apiKey) && Truthy(config.toEmail)
    ensures var r := Handler(ContactRequest("POST", Some(""), Some("a@b.com"), Some("hi")), config, outcome);
      r.0.status == 400 && r.1.None?
  {
  }
}
