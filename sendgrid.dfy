/** The support form's route (`POST /api/sendgrid`): it checks that the four fields are filled,
    composes one mail to the support address and reports whether SendGrid took it. The mail
    service is a parameter: whether `sgMail.send` resolves. */
module SendGrid {
  import opened Wrappers
  import opened Strings
  import opened Http

  /** The address the mail goes to and comes from. */
  const SupportAddress := "s.kuehne@sk-online-marketing.de"
  const SubjectPrefix := "Chatbot Support: "
  const MissingFields := "Alle Felder müssen ausgefüllt werden."
  const Sent := "E-Mail erfolgreich gesendet!"
  const SendFailed := "Interner Serverfehler beim Senden der E-Mail."

  datatype Mail = Mail(to: string, from: string, subject: string, text: string)

  /** What the handler answers, and the mail it handed to SendGrid, if any. */
  datatype Outcome = Outcome(response: Response, mail: Option<Mail>)

  /** A value inside a template literal: `String(v)` for the JSON values a body can hold. */
  function TemplateString(j: Json): string
    decreases j
  {
    match j
    case Null => "null"
    case Bool(b) => if b then "true" else "false"
    case Num(n) => IntToString(n)
    case Str(s) => s
    case Arr(items) =>
      Join(seq(|items|, k requires 0 <= k < |items| => if items[k] == Null then "" else TemplateString(items[k])), ",")
    case Obj(_) => "[object Object]"
  }

  /** The four fields, as the destructuring `const {name, email, subject, message} = body`
      reads them. */
  predicate AllFilled(body: Json) {
    JsTruthy(Member(Some(body), "name")) && JsTruthy(Member(Some(body), "email")) &&
    JsTruthy(Member(Some(body), "subject")) && JsTruthy(Member(Some(body), "message"))
  }

  /** `Chatbot Support: ${subject}`. */
  function SubjectLine(subject: Json): (r: string)
    ensures StartsWith(r, SubjectPrefix)
    ensures r[|SubjectPrefix|..] == TemplateString(subject)
  {
    SubjectPrefix + TemplateString(subject)
  }

  /** `Nachricht von ${name} (${email}):\n${message}`: the text is, piece by piece, the
      introduction with the name, the email, `):` and a newline, then the message. */
  function MessageText(name: Json, email: Json, message: Json): (r: string)
    ensures var p, e, m := "Nachricht von " + TemplateString(name) + " (", TemplateString(email), TemplateString(message);
      && |r| == |p| + |e| + 3 + |m|
      && r[..|p|] == p
      && r[|p|..|p| + |e|] == e
      && r[|p| + |e|..|p| + |e| + 3] == "):\n"
      && r[|p| + |e| + 3..] == m
  {
    var p, e, m := "Nachricht von " + TemplateString(name) + " (", TemplateString(email), TemplateString(message);
    Pieces(p, e, "):\n", m);
    p + e + "):\n" + m
  }

  /** The four pieces of a concatenation are found at their offsets. */
  lemma Pieces(p: string, e: string, c: string, m: string)
    ensures var r := p + e + c + m;
      && |r| == |p| + |e| + |c| + |m|
      && r[..|p|] == p
      && r[|p|..|p| + |e|] == e
      && r[|p| + |e|..|p| + |e| + |c|] == c
      && r[|p| + |e| + |c|..] == m
  {
    var r := p + e + c + m;
    assert r == ((p + e) + c) + m;
    assert r[..|p| + |e| + |c|] == (p + e) + c;
    assert r[..|p| + |e|] == p + e;
  }

  /** The mail for a body whose fields are filled. */
  function Compose(body: Json): Mail
    requires AllFilled(body)
  {
    var name, email := Member(Some(body), "name").value, Member(Some(body), "email").value;
    var subject, message := Member(Some(body), "subject").value, Member(Some(body), "message").value;
    Mail(SupportAddress, SupportAddress, SubjectLine(subject), MessageText(name, email, message))
  }

  function Answer(success: bool, message: string, status: int): Response {
    JsonReply(status, Obj([("success", Bool(success)), ("message", Str(message))]))
  }

  /** The handler. `body` is `None` when `request.json()` throws; destructuring `null` throws
      too; every exception, the send's included, is caught and answered with 500. */
  function Post(body: Option<Json>, delivered: bool): (r: Outcome)
    ensures r.mail.Some? <==> body.Some? && body.value != Null && AllFilled(body.value)
    ensures r.response.Reply?
  {
    if body.None? || body.value == Null then Outcome(Answer(false, SendFailed, 500), None)
    else if !AllFilled(body.value) then Outcome(Answer(false, MissingFields, 400), None)
    else
      var mail := Compose(body.value);
      if delivered then Outcome(Answer(true, Sent, 200), Some(mail))
      else Outcome(Answer(false, SendFailed, 500), Some(mail))
  }

  /** The answer is 400 exactly when a readable body lacks a field, and then nothing is sent;
      200 with `success: true` exactly when the mail was sent and SendGrid took it; every other
      outcome is 500 with `success: false`. */
  lemma PostOutcomes(body: Option<Json>, delivered: bool)
    ensures var r := Post(body, delivered);
      (r.response.status == 400 <==> body.Some? && body.value != Null && !AllFilled(body.value)) &&
      (r.response.status == 400 ==> r.mail.None?) &&
      (r.response.status == 200 <==> r.mail.Some? && delivered) &&
      (r.response.status == 200 ==> Field(r.response.body, "success") == Some(Bool(true))) &&
      (r.response.status != 200 ==> Field(r.response.body, "success") == Some(Bool(false))) &&
      (r.response.status == 200 || r.response.status == 400 || r.response.status == 500)
  {
  }

  /** Every mail goes from the support address to itself, and carries the form's subject after
      the prefix and, in its text, the form's name, email and message at their places. */
  lemma MailContents(body: Json, delivered: bool)
    requires body != Null && AllFilled(body)
    ensures var m := Post(Some(body), delivered).mail.value;
      m.to == SupportAddress && m.from == SupportAddress &&
      StartsWith(m.subject, SubjectPrefix) &&
      m.subject[|SubjectPrefix|..] == TemplateString(Member(Some(body), "subject").value)
    ensures var m := Post(Some(body), delivered).mail.value;
      var p := "Nachricht von " + TemplateString(Member(Some(body), "name").value) + " (";
      var e := TemplateString(Member(Some(body), "email").value);
      && |m.text| == |p| + |e| + 3 + |TemplateString(Member(Some(body), "message").value)|
      && m.text[..|p|] == p
      && m.text[|p|..|p| + |e|] == e
      && m.text[|p| + |e|..|p| + |e| + 3] == "):\n"
      && m.text[|p| + |e| + 3..] == TemplateString(Member(Some(body), "message").value)
  {
  }

  /** Two forms whose subjects differ give mails whose subjects differ. */
  lemma SubjectLineInjective(a: Json, b: Json)
    requires TemplateString(a) != TemplateString(b)
    ensures SubjectLine(a) != SubjectLine(b)
  {
    assert SubjectLine(a)[|SubjectPrefix|..] != SubjectLine(b)[|SubjectPrefix|..];
  }
}
