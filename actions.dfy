/**
  The two server actions: `sendQuote`, which mails a prepared quote body, and
  `sendEmail`, which validates a contact form against the server's own schema
  and mails it. The mail relay is a parameter: `relayAccepts` is its verdict.
 */
module Actions {
  import opened Wrappers
  import opened JsText
  import opened ZodString

  /** A mail as the actions hand it to the relay. */
  datatype Mail = Mail(recipients: string, subject: string, html: string)

  /** What an action returns to the page: `{ success: true }` or `{ error }`. */
  datatype ActionResult = Success | Failure(error: string)

  /** The two environment entries the actions read: `EMAIL_USER` and `RECIPIENT1`. */
  datatype Env = Env(emailUser: Option<string>, recipient1: Option<string>)

  const QuoteSendError: string := "An error occurred while sending the quote request. Please try again."
  const EmailSendError: string := "An error occurred while sending the message. Please try again."
  const ContactSubject: string := "New Contact Form Submission"

  // ---------------------------------------------------------------- sendQuote

  function QuoteSubject(serviceType: string): string {
    "New Quote Request - " + ToUpper(serviceType) + " Freight"
  }

  function QuoteHtml(body: string): string {
    "\n        <h2>New Quote Request</h2> " + body
  }

  /** An unset `EMAIL_USER` gives an empty recipient list; whether the relay takes such a mail is its own verdict. */
  function OrEmpty(v: Option<string>): string {
    if v.Some? then v.value else ""
  }

  /** `sendQuote`: the mail it composes, and its answer given the relay's verdict. */
  function SendQuote(env: Env, serviceType: string, body: string, relayAccepts: bool): (ActionResult, Mail) {
    var mail := Mail(OrEmpty(env.emailUser), QuoteSubject(serviceType), QuoteHtml(body));
    (if relayAccepts then Success else Failure(QuoteSendError), mail)
  }

  /**
    A quote mail goes to `EMAIL_USER`, names the service in capitals between
    the fixed subject words, carries the body unchanged after the heading, and
    the action reports success exactly when the relay accepts it, and the one
    fixed error text otherwise.
   */
  lemma SendQuoteSpec(env: Env, serviceType: string, body: string, relayAccepts: bool)
    ensures var (r, m) := SendQuote(env, serviceType, body, relayAccepts);
      && m.recipients == OrEmpty(env.emailUser)
      && m.subject[..20] == "New Quote Request - "
      && m.subject[20..20 + |serviceType|] == ToUpper(serviceType)
      && m.subject[20 + |serviceType|..] == " Freight"
      && m.html[|m.html| - |body|..] == body
      && (r == Success <==> relayAccepts)
      && (r.Failure? ==> r.error == QuoteSendError)
  {
    var s := QuoteSubject(serviceType);
    assert s == "New Quote Request - " + ToUpper(serviceType) + " Freight";
    assert s[..20] == "New Quote Request - ";
    assert s[20..20 + |serviceType|] == ToUpper(serviceType);
  }

  /** Service names that differ in capitals give different subjects. */
  lemma QuoteSubjectSeparates(a: string, b: string)
    requires ToUpper(a) != ToUpper(b)
    ensures QuoteSubject(a) != QuoteSubject(b)
  {
    if |a| == |b| {
      assert QuoteSubject(a)[20..20 + |a|] == ToUpper(a);
      assert QuoteSubject(b)[20..20 + |b|] == ToUpper(b);
    } else {
      assert |QuoteSubject(a)| != |QuoteSubject(b)|;
    }
  }

  // ---------------------------------------------------------------- sendEmail

  /** The contact form as the browser posts it: every field is a text, possibly empty. */
  datatype ContactPost = ContactPost(name: string, email: string, phone: string, company: string, message: string)

  /** The default messages of the server schema's checks. */
  const TooShortTwo: string := "String must contain at least 2 character(s)"
  const TooShortTen: string := "String must contain at least 10 character(s)"
  const InvalidEmail: string := "Invalid email"
  const InvalidPattern: string := "Invalid"
  const InvalidInput: string := "Invalid input"

  /** The server's phone expression; it is taken as given. */
  type PhonePattern = string -> bool

  /** Whether the server schema accepts each field; company may be empty or two characters long. */
  predicate ServerAccepts(p: ContactPost, isEmail: EmailRecogniser, phoneOk: PhonePattern) {
    && |p.name| >= 2
    && isEmail(p.email)
    && phoneOk(p.phone)
    && (|p.company| == 0 || |p.company| >= 2)
    && |p.message| >= 10
  }

  /**
    The message of the server parse's first issue. Each field has one check and
    the fields are checked in declaration order, so the first issue is that of
    the first field that fails.
   */
  function ServerFirstIssue(p: ContactPost, isEmail: EmailRecogniser, phoneOk: PhonePattern): (r: Option<string>)
    ensures r.None? <==> ServerAccepts(p, isEmail, phoneOk)
  {
    if |p.name| < 2 then Some(TooShortTwo)
    else if !isEmail(p.email) then Some(InvalidEmail)
    else if !phoneOk(p.phone) then Some(InvalidPattern)
    else if !(|p.company| == 0 || |p.company| >= 2) then Some(InvalidInput)
    else if |p.message| < 10 then Some(TooShortTen)
    else None
  }

  /** `[EMAIL_USER, RECIPIENT1 ?? null].filter(e => e).join(", ")`. */
  function Recipients(env: Env): string {
    var listed := (if OrEmpty(env.emailUser) != "" then [OrEmpty(env.emailUser)] else [])
      + (if OrEmpty(env.recipient1) != "" then [OrEmpty(env.recipient1)] else []);
    Join(listed, ", ")
  }

  /** Both configured addresses are listed, comma separated; an unset or empty one is skipped. */
  lemma RecipientsSpec(env: Env)
    ensures OrEmpty(env.emailUser) != "" && OrEmpty(env.recipient1) != "" ==>
      Recipients(env) == OrEmpty(env.emailUser) + ", " + OrEmpty(env.recipient1)
    ensures OrEmpty(env.emailUser) != "" && OrEmpty(env.recipient1) == "" ==> Recipients(env) == OrEmpty(env.emailUser)
    ensures OrEmpty(env.emailUser) == "" ==> Recipients(env) == OrEmpty(env.recipient1)
  {
    var u, r := OrEmpty(env.emailUser), OrEmpty(env.recipient1);
    if u != "" && r != "" {
      assert Join([u, r], ", ") == u + ", " + Join([r], ", ");
    }
  }

  /** The line that names the company, present only when a company was given. */
  function CompanyParagraph(company: string): string {
    if company != "" then "<p><strong>Company:</strong> " + company + "</p>" else ""
  }

  /** The message paragraph: the message with each line break written as `<br>`. */
  function MessageParagraph(message: string): string {
    "<p>" + ReplaceAll(message, '\n', "<br>") + "</p>"
  }

  function ContactHtml(p: ContactPost): string {
    "\n        <h2>New Contact Form Submission</h2>\n        <p><strong>Name:</strong> " + p.name
      + "</p>\n        <p><strong>Email:</strong> " + p.email
      + "</p>\n        <p><strong>Phone:</strong> " + p.phone
      + "</p>\n        " + CompanyParagraph(p.company)
      + "\n        <p><strong>Message:</strong></p>\n        " + MessageParagraph(p.message)
  }

  /**
    The mail ends with the message paragraph. Its text is the message with
    each line break replaced by `<br>` (`ReplaceAllAppend` and `ReplaceAllChar`
    say that this works character by character), so it holds no line break
    and equals the message when the message had none. The company line is
    empty exactly when no company was given.
   */
  lemma ContactHtmlSpec(p: ContactPost)
    ensures var para := MessageParagraph(p.message);
      && ContactHtml(p)[|ContactHtml(p)| - |para|..] == para
      && para[..3] == "<p>" && para[|para| - 4..] == "</p>"
      && para[3..|para| - 4] == ReplaceAll(p.message, '\n', "<br>")
      && '\n' !in para[3..|para| - 4]
      && ('\n' !in p.message ==> para[3..|para| - 4] == p.message)
    ensures CompanyParagraph(p.company) == "" <==> p.company == ""
  {
    ReplaceAllRemoves(p.message, '\n', "<br>");
    var para := MessageParagraph(p.message);
    assert para[3..|para| - 4] == ReplaceAll(p.message, '\n', "<br>");
  }

  /** A two-line message is sent as one paragraph with the lines joined by `<br>`. */
  lemma MessageParagraphBreaks(a: string, b: string)
    requires '\n' !in a && '\n' !in b
    ensures MessageParagraph(a + "\n" + b) == "<p>" + a + "<br>" + b + "</p>"
  {
    ReplaceAllAppend(a + "\n", b, '\n', "<br>");
    ReplaceAllAppend(a, "\n", '\n', "<br>");
    ReplaceAllChar('\n', '\n', "<br>");
    ReplaceAllRemoves(a, '\n', "<br>");
    ReplaceAllRemoves(b, '\n', "<br>");
  }

  /**
    `sendEmail`: a post the server schema refuses is answered with the first
    issue's message and no mail; an accepted one is mailed to the recipients,
    and the answer is the relay's verdict.
   */
  function SendEmail(p: ContactPost, env: Env, isEmail: EmailRecogniser, phoneOk: PhonePattern, relayAccepts: bool): (ActionResult, Option<Mail>) {
    match ServerFirstIssue(p, isEmail, phoneOk)
    case Some(m) => (Failure(m), None)
    case None =>
      (if relayAccepts then Success else Failure(EmailSendError), Some(Mail(Recipients(env), ContactSubject, ContactHtml(p))))
  }

  /** A mail is composed exactly when the server schema accepts the post; success needs both that and the relay. */
  lemma SendEmailSpec(p: ContactPost, env: Env, isEmail: EmailRecogniser, phoneOk: PhonePattern, relayAccepts: bool)
    ensures var (r, m) := SendEmail(p, env, isEmail, phoneOk, relayAccepts);
      && (m.Some? <==> ServerAccepts(p, isEmail, phoneOk))
      && (r == Success <==> ServerAccepts(p, isEmail, phoneOk) && relayAccepts)
      && (!ServerAccepts(p, isEmail, phoneOk) ==> r == Failure(ServerFirstIssue(p, isEmail, phoneOk).value))
      && (m.Some? ==> m.value == Mail(Recipients(env), ContactSubject, ContactHtml(p)))
  {
  }

  /** The refusal names the earliest failing field: a short name outranks every other fault. */
  lemma ServerIssueOrder(p: ContactPost, isEmail: EmailRecogniser, phoneOk: PhonePattern)
    ensures |p.name| < 2 ==> ServerFirstIssue(p, isEmail, phoneOk) == Some(TooShortTwo)
    ensures |p.name| >= 2 && isEmail(p.email) && phoneOk(p.phone) && (|p.company| == 0 || |p.company| >= 2) && |p.message| < 10
      ==> ServerFirstIssue(p, isEmail, phoneOk) == Some(TooShortTen)
    ensures |p.company| == 1 && |p.name| >= 2 && isEmail(p.email) && phoneOk(p.phone)
      ==> ServerFirstIssue(p, isEmail, phoneOk) == Some(InvalidInput)
  {
  }
}
