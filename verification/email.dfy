/**
 Transactional e-mail delivery (utils/email.ts): a static table chooses the
 first transport for each e-mail category, the Resend API is tried first for
 the categories mapped to it, and SMTP serves both as the direct transport and
 as the fallback after any Resend failure.

 The two clients are not modelled; what each one does with the message it is
 handed is an input (`ClientOutcome`). Environment variables are the `Env`
 record. Templates, headers and logging are left out.
 */
module Email {
  import opened Base
  import Text

  datatype EmailType = WelcomeGeneral | ExpertApplicationPending | AdminNotification

  datatype Transport = Resend | Smtp

  /** The category-to-transport table. */
  function ConfiguredTransport(t: EmailType): Transport {
    match t
    case WelcomeGeneral => Resend
    case ExpertApplicationPending => Resend
    case AdminNotification => Smtp
  }

  /** Resend goes first only for a category the table maps to it; no category means SMTP. */
  predicate UsesResend(t: Option<EmailType>) {
    t.Some? && ConfiguredTransport(t.value) == Resend
  }

  lemma ResendCategories(t: Option<EmailType>)
    ensures UsesResend(t) <==> t == Some(WelcomeGeneral) || t == Some(ExpertApplicationPending)
  {
  }

  // ---------------------------------------------------------------------------
  // The plain-text body

  /** No `<` is followed, anywhere later, by a `>`: the pattern `<[^>]*>` has no match. */
  predicate HasNoTag(s: string) {
    forall i, j :: 0 <= i < j < |s| && s[i] == '<' ==> s[j] != '>'
  }

  /**
   `s.replace(/<[^>]*>/g, "")`: scanning left to right, a `<` that has a `>`
   somewhere after it starts a match that runs to the first such `>`, and the
   match is deleted; every other character is kept.
   */
  function StripTags(s: string): (r: string)
    ensures |r| <= |s|
    ensures multiset(r) <= multiset(s)
    ensures HasNoTag(r)
  {
    if s == [] then []
    else
      var close := Text.IndexOfChar(s, '>');
      assert s == s[..close + 1] + s[close + 1..];
      assert s == [s[0]] + s[1..];
      if s[0] == '<' && close != -1 then StripTags(s[close + 1..])
      else
        var rest := StripTags(s[1..]);
        assert s[0] == '<' ==> '>' !in rest by {
          if '>' in rest {
            assert multiset(rest)['>'] > 0;
          }
        }
        ConsKeepsTagFree(s[0], rest);
        [s[0]] + rest
  }

  /** Putting a character before tag-free text keeps it tag-free, unless a `<` meets a later `>`. */
  lemma ConsKeepsTagFree(c: char, rest: string)
    requires HasNoTag(rest)
    requires c == '<' ==> '>' !in rest
    ensures HasNoTag([c] + rest)
  {
    var r := [c] + rest;
    forall i, j | 0 <= i < j < |r| && r[i] == '<'
      ensures r[j] != '>'
    {
      assert r[j] == rest[j - 1];
      if i > 0 {
        assert rest[i - 1] == '<';
      }
    }
  }

  /** Dropping the first character keeps text tag-free. */
  lemma HasNoTagTail(s: string)
    requires s != [] && HasNoTag(s)
    ensures HasNoTag(s[1..])
  {
    forall i, j | 0 <= i < j < |s[1..]| && s[1..][i] == '<'
      ensures s[1..][j] != '>'
    {
      assert s[i + 1] == '<';
    }
  }

  /** A string without tags is left as it is. */
  lemma {:induction false} StripTagsKeepsTagFree(s: string)
    requires HasNoTag(s)
    ensures StripTags(s) == s
  {
    if s != [] {
      assert s[0] == '<' ==> forall j :: 0 < j < |s| ==> s[j] != '>';
      HasNoTagTail(s);
      StripTagsKeepsTagFree(s[1..]);
    }
  }

  /** Text before the first `<` is kept as it is. */
  lemma {:induction false} StripTagsPlainPrefix(a: string, b: string)
    requires '<' !in a
    ensures StripTags(a + b) == a + StripTags(b)
  {
    if a == [] {
      assert a + b == b;
    } else {
      assert (a + b)[0] == a[0];
      assert (a + b)[1..] == a[1..] + b;
      StripTagsPlainPrefix(a[1..], b);
    }
  }

  /** A `<` and the first `>` after it are deleted together with everything between them. */
  lemma StripTagsDeletesTag(t: string, b: string)
    requires '>' !in t
    ensures StripTags("<" + t + ">" + b) == StripTags(b)
  {
    var s := "<" + t + ">" + b;
    var close := Text.IndexOfChar(s, '>');
    assert s[..|t| + 1] == "<" + t;
    assert s[|t| + 1] == '>';
    Text.FirstIndexUnique(s, '>', close, |t| + 1);
    assert s[close + 1..] == b;
  }

  /** HTML that contains no `<` at all is returned unchanged. */
  lemma StripTagsWithoutMarkup(s: string)
    requires '<' !in s
    ensures StripTags(s) == s
  {
    StripTagsKeepsTagFree(s);
  }

  /** Stripping twice is stripping once. */
  lemma StripTagsIdempotent(s: string)
    ensures StripTags(StripTags(s)) == StripTags(s)
  {
    StripTagsKeepsTagFree(StripTags(s));
  }

  datatype EmailOptions = EmailOptions(to: string, subject: string, html: string, text: Option<string>)

  /** What a sender hands to its client (sender address and headers are left out). */
  datatype Mail = Mail(to: string, subject: string, html: string, text: string)

  /** `options.text || options.html.replace(/<[^>]*>/g, "")`. */
  function PlainText(o: EmailOptions): (t: string)
    ensures Truthy(o.text) ==> t == o.text.value
    ensures !Truthy(o.text) ==> t == StripTags(o.html) && HasNoTag(t) && |t| <= |o.html|
    ensures !Truthy(o.text) && '<' !in o.html ==> t == o.html
  {
    if Truthy(o.text) then o.text.value
    else if '<' in o.html then StripTags(o.html)
    else
      StripTagsWithoutMarkup(o.html);
      StripTags(o.html)
  }

  function MailFor(o: EmailOptions): Mail {
    Mail(o.to, o.subject, o.html, PlainText(o))
  }

  // ---------------------------------------------------------------------------
  // The two senders

  /** The environment variables the senders read. */
  datatype Env = Env(resendApiKey: Option<string>, emailUser: Option<string>, emailPassword: Option<string>)

  /** What a client does with a message: accepts it, fails with an `Error`, or throws something else. */
  datatype ClientOutcome = Delivered | Failed(message: string) | ThrewNonError

  /** A sender's report; `handedOff` is the message given to the client, if it got that far. */
  datatype SendResult = SendResult(success: bool, error: Option<string>, handedOff: Option<Mail>)

  const ResendKeyMissing: string := "RESEND_API_KEY not configured"
  const SmtpCredentialsMissing: string := "EMAIL_USER and EMAIL_PASSWORD must be set in environment variables"

  /** The report of a sender whose client was reached. */
  function ClientReport(m: Mail, outcome: ClientOutcome, unknown: string): SendResult {
    match outcome
    case Delivered => SendResult(true, None, Some(m))
    case Failed(msg) => SendResult(false, Some(msg), Some(m))
    case ThrewNonError => SendResult(false, Some(unknown), Some(m))
  }

  /** `sendWithResend`: every problem, a missing API key included, is reported rather than thrown. */
  function SendWithResend(o: EmailOptions, env: Env, client: ClientOutcome): (r: SendResult)
    ensures r.success <==> Truthy(env.resendApiKey) && client == Delivered
    ensures r.success <==> r.error.None?
    ensures !Truthy(env.resendApiKey) ==> r.error == Some(ResendKeyMissing) && r.handedOff.None?
    ensures Truthy(env.resendApiKey) ==> r.handedOff == Some(MailFor(o))
    ensures Truthy(env.resendApiKey) && client.Failed? ==> r.error == Some(client.message)
    ensures Truthy(env.resendApiKey) && client.ThrewNonError? ==> r.error == Some("Unknown Resend error")
  {
    if !Truthy(env.resendApiKey) then SendResult(false, Some(ResendKeyMissing), None)
    else ClientReport(MailFor(o), client, "Unknown Resend error")
  }

  /** `sendWithSMTP`: missing credentials are reported rather than thrown. */
  function SendWithSmtp(o: EmailOptions, env: Env, client: ClientOutcome): (r: SendResult)
    ensures r.success <==> Truthy(env.emailUser) && Truthy(env.emailPassword) && client == Delivered
    ensures r.success <==> r.error.None?
    ensures !(Truthy(env.emailUser) && Truthy(env.emailPassword)) ==>
              r.error == Some(SmtpCredentialsMissing) && r.handedOff.None?
    ensures Truthy(env.emailUser) && Truthy(env.emailPassword) ==> r.handedOff == Some(MailFor(o))
    ensures Truthy(env.emailUser) && Truthy(env.emailPassword) && client.Failed? ==>
              r.error == Some(client.message)
    ensures Truthy(env.emailUser) && Truthy(env.emailPassword) && client.ThrewNonError? ==>
              r.error == Some("Unknown SMTP error")
  {
    if !Truthy(env.emailUser) || !Truthy(env.emailPassword) then
      SendResult(false, Some(SmtpCredentialsMissing), None)
    else ClientReport(MailFor(o), client, "Unknown SMTP error")
  }

  // ---------------------------------------------------------------------------
  // Routing and fallback

  /** The result of `sendEmail`, with the senders it invoked, in order. */
  datatype Delivery = Delivery(success: bool, error: Option<string>, service: string, attempts: seq<Transport>)

  /** A Resend error that reads as an exhausted sending quota. */
  predicate IsRateLimitError(e: string) {
    Text.Contains(e, "rate limit") || Text.Contains(e, "quota") || Text.Contains(e, "daily limit")
  }

  // Long literals are written as concatenations so that the verifier can see their characters.
  const RateLimitPrefix: string := "Resend failed (rate limit), " + "SMTP also failed: "
  const BothFailedPrefix: string := "Both Resend and SMTP failed. Resend: "

  /** The error reported when Resend and then the SMTP fallback both failed. */
  function DoubleFailureText(resendError: string, smtpError: string): (e: string)
    ensures Text.EndsWith(e, smtpError)
    ensures IsRateLimitError(resendError) <==> Text.StartsWith(e, RateLimitPrefix)
    ensures !IsRateLimitError(resendError) ==>
              Text.StartsWith(e, BothFailedPrefix) && Text.OccursAt(e, resendError, |BothFailedPrefix|)
    ensures IsRateLimitError(resendError) ==> |e| == |RateLimitPrefix| + |smtpError|
    ensures !IsRateLimitError(resendError) ==>
              Text.OccursAt(e, ", SMTP: ", |BothFailedPrefix| + |resendError|) &&
              |e| == |BothFailedPrefix| + |resendError| + 8 + |smtpError|
  {
    if IsRateLimitError(resendError) then RateLimitPrefix + smtpError
    else
      var e := BothFailedPrefix + resendError + ", SMTP: " + smtpError;
      assert e[0] == 'B' && RateLimitPrefix[0] == 'R';
      assert e[|BothFailedPrefix|..|BothFailedPrefix| + |resendError|] == resendError;
      assert e[|BothFailedPrefix| + |resendError|..|BothFailedPrefix| + |resendError| + 8] == ", SMTP: ";
      e
  }

  /**
   `sendEmail`: the outcome of one call, given what each client would do with
   the message it is handed.
   */
  function SendEmail(o: EmailOptions, t: Option<EmailType>, env: Env,
                     resendClient: ClientOutcome, smtpClient: ClientOutcome): (d: Delivery)
    // the first sender is chosen by the category alone
    ensures |d.attempts| >= 1
    ensures d.attempts[0] == Resend <==> UsesResend(t)
    // SMTP is invoked at most once, and only as the first sender or right after a failed Resend
    ensures d.attempts == [Smtp] || d.attempts == [Resend] || d.attempts == [Resend, Smtp]
    ensures d.attempts == [Resend] <==> UsesResend(t) && SendWithResend(o, env, resendClient).success
    // the call succeeds exactly when the last sender invoked succeeded, and then reports no error
    ensures d.success <==> d.error.None?
    ensures d.success <==>
              (if d.attempts[|d.attempts| - 1] == Resend then SendWithResend(o, env, resendClient).success
               else SendWithSmtp(o, env, smtpClient).success)
    // the service label
    ensures d.service == "resend" <==> d.attempts == [Resend]
    ensures d.service == "smtp" <==> d.attempts == [Smtp]
    ensures d.service == "smtp-fallback" <==> d.attempts == [Resend, Smtp] && d.success
    ensures d.service == "failed" <==> d.attempts == [Resend, Smtp] && !d.success
    // the errors
    ensures d.attempts == [Smtp] ==> d.error == SendWithSmtp(o, env, smtpClient).error
    ensures d.service == "failed" ==>
              d.error == Some(DoubleFailureText(SendWithResend(o, env, resendClient).error.value,
                                                SendWithSmtp(o, env, smtpClient).error.value))
  {
    if UsesResend(t) then
      var resend := SendWithResend(o, env, resendClient);
      if resend.success then Delivery(true, None, "resend", [Resend])
      else
        var smtp := SendWithSmtp(o, env, smtpClient);
        if smtp.success then Delivery(true, None, "smtp-fallback", [Resend, Smtp])
        else Delivery(false, Some(DoubleFailureText(resend.error.value, smtp.error.value)), "failed", [Resend, Smtp])
    else
      var smtp := SendWithSmtp(o, env, smtpClient);
      Delivery(smtp.success, smtp.error, "smtp", [Smtp])
  }

  /**
   Whether a Resend failure reads as rate limiting changes only the error text:
   the senders invoked, the success flag and the service label are the same.
   */
  lemma RateLimitOnlyChangesErrorText(o: EmailOptions, t: Option<EmailType>, env: Env,
                                      c1: ClientOutcome, c2: ClientOutcome, smtpClient: ClientOutcome)
    requires !SendWithResend(o, env, c1).success && !SendWithResend(o, env, c2).success
    ensures SendEmail(o, t, env, c1, smtpClient).attempts == SendEmail(o, t, env, c2, smtpClient).attempts
    ensures SendEmail(o, t, env, c1, smtpClient).success == SendEmail(o, t, env, c2, smtpClient).success
    ensures SendEmail(o, t, env, c1, smtpClient).service == SendEmail(o, t, env, c2, smtpClient).service
  {
  }

  /** Resend is never consulted for the categories routed to SMTP: its outcome cannot matter. */
  lemma DirectSmtpIgnoresResend(o: EmailOptions, t: Option<EmailType>, env: Env,
                                c1: ClientOutcome, c2: ClientOutcome, smtpClient: ClientOutcome)
    requires !UsesResend(t)
    ensures SendEmail(o, t, env, c1, smtpClient) == SendEmail(o, t, env, c2, smtpClient)
  {
  }

  /** After a Resend success the SMTP client's behaviour cannot matter. */
  lemma ResendSuccessIgnoresSmtp(o: EmailOptions, t: Option<EmailType>, env: Env,
                                 resendClient: ClientOutcome, s1: ClientOutcome, s2: ClientOutcome)
    requires UsesResend(t) && SendWithResend(o, env, resendClient).success
    ensures SendEmail(o, t, env, resendClient, s1) == SendEmail(o, t, env, resendClient, s2)
  {
  }
}
