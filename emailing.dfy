/** `send_email` and its wrappers: the message headers, the body and
    attachment parts, and the envelope recipient list handed to the SMTP
    server. The clock (`formatdate`) is an input; file contents, MIME
    encoding and the SMTP exchange itself are not modelled. */
module Emailing {
  import opened Wrappers
  import opened Driver
  import opened Text

  const SmtpServer: string := "mail.wcap.ca"
  const SmtpPort: int := 25
  const ReportingSender: string := "Python@wcap.ca"
  const ReportingRecipient: string := "Reporting@wcap.ca"

  datatype Header = Header(name: string, value: string)

  /** A MIME part: the text body with its subtype, or an attached file
      with its Content-Disposition value. */
  datatype Part = TextPart(body: string, subtype: string) | FilePart(disposition: string)

  /** What is handed to `sendmail`. */
  datatype Sent = Sent(server: string, port: int, sender: string, envelope: seq<string>,
                       headers: seq<Header>, parts: seq<Part>)

  /** `x or []` for an optional list. */
  function OrEmpty(xs: Option<seq<string>>): (r: seq<string>)
    ensures xs.None? ==> r == []
    ensures xs.Some? ==> r == xs.value
  {
    if xs.Some? then xs.value else []
  }

  /** `Path.name`: the text after the last '/'. */
  function PathName(p: string): (name: string)
    ensures '/' !in name
    ensures |name| <= |p| && p[|p| - |name|..] == name
  {
    if |p| == 0 || p[|p| - 1] == '/' then ""
    else
      var init := PathName(p[..|p| - 1]);
      assert p[..|p| - 1][|p| - 1 - |init|..] == init;
      assert p[|p| - 1 - |init|..] == init + [p[|p| - 1]];
      init + [p[|p| - 1]]
  }

  /** The headers in the order they are set; a Cc header only when the cc
      list is non-empty. The bcc list takes no part. */
  function Headers(sender: string, recipients: seq<string>, cc: seq<string>, date: string, subject: string): seq<Header>
  {
    [Header("From", sender), Header("To", Join(recipients, ", "))] +
    (if |cc| > 0 then [Header("Cc", Join(cc, ", "))] else []) +
    [Header("Date", date), Header("Subject", subject)]
  }

  /** The attachment part of one file. */
  function AttachmentPart(path: string): Part
  {
    FilePart("attachment; filename=" + PathName(path))
  }

  /** The envelope: recipients, cc and bcc in that order, each address
      once, at its first occurrence. */
  function Envelope(recipients: seq<string>, cc: seq<string>, bcc: seq<string>): seq<string>
  {
    Dedup(recipients + cc + bcc)
  }

  /** The MIME container, whose header list and part list grow as the
      message is assembled. */
  class Message {
    var headers: seq<Header>
    var parts: seq<Part>

    constructor()
      ensures headers == [] && parts == []
    {
      headers := [];
      parts := [];
    }

    /** `msg[name] = value` */
    method SetHeader(name: string, value: string)
      modifies this
      ensures headers == old(headers) + [Header(name, value)] && parts == old(parts)
    {
      headers := headers + [Header(name, value)];
    }

    /** `msg.attach(part)` */
    method Attach(part: Part)
      modifies this
      ensures parts == old(parts) + [part] && headers == old(headers)
    {
      parts := parts + [part];
    }
  }

  /** The header block of `send_email`, written on a new message. */
  method WriteHeaders(msg: Message, sender: string, recipients: seq<string>, cc: seq<string>, date: string, subject: string)
    requires msg.headers == []
    modifies msg
    ensures msg.headers == Headers(sender, recipients, cc, date, subject) && msg.parts == old(msg.parts)
  {
    msg.SetHeader("From", sender);
    msg.SetHeader("To", Join(recipients, ", "));
    if |cc| > 0 {
      msg.SetHeader("Cc", Join(cc, ", "));
    }
    msg.SetHeader("Date", date);
    msg.SetHeader("Subject", subject);
  }

  function AttachmentParts(files: seq<string>): seq<Part>
  {
    seq(|files|, i requires 0 <= i < |files| => AttachmentPart(files[i]))
  }

  /** The attachment loop of `send_email`: one part per file, in order. */
  method AttachFiles(msg: Message, files: seq<string>)
    modifies msg
    ensures msg.parts == old(msg.parts) + AttachmentParts(files) && msg.headers == old(msg.headers)
  {
    var i := 0;
    while i < |files|
      invariant 0 <= i <= |files|
      invariant msg.parts == old(msg.parts) + AttachmentParts(files[..i]) && msg.headers == old(msg.headers)
    {
      msg.Attach(FilePart("attachment; filename=" + PathName(files[i])));
      assert AttachmentParts(files[..i + 1]) == AttachmentParts(files[..i]) + [AttachmentPart(files[i])];
      i := i + 1;
    }
    assert files[..i] == files;
  }

  /** `send_email` */
  method SendEmail(sender: string, recipients: seq<string>, subject: string, body: string, bodyType: string,
                   attachments: Option<seq<string>>, cc: Option<seq<string>>, bcc: Option<seq<string>>, date: string)
    returns (sent: Sent)
    ensures sent.server == SmtpServer && sent.port == SmtpPort && sent.sender == sender
    ensures sent.headers == Headers(sender, recipients, OrEmpty(cc), date, subject)
    ensures |sent.parts| == 1 + |OrEmpty(attachments)| && sent.parts[0] == TextPart(body, bodyType)
    ensures forall i :: 0 <= i < |OrEmpty(attachments)| ==> sent.parts[i + 1] == AttachmentPart(OrEmpty(attachments)[i])
    ensures sent.envelope == Envelope(recipients, OrEmpty(cc), OrEmpty(bcc))
  {
    var files := OrEmpty(attachments);
    var ccList := OrEmpty(cc);
    var bccList := OrEmpty(bcc);
    var msg := new Message();
    WriteHeaders(msg, sender, recipients, ccList, date, subject);
    msg.Attach(TextPart(body, bodyType));
    AttachFiles(msg, files);
    assert msg.parts == [TextPart(body, bodyType)] + AttachmentParts(files);
    var allRecipients := Dedup(recipients + ccList + bccList);
    sent := Sent(SmtpServer, SmtpPort, sender, allRecipients, msg.headers, msg.parts);
  }

  /** The envelope holds every address of the three lists and nothing
      else, has no duplicates, and keeps first-occurrence order. */
  lemma EnvelopeSpec(recipients: seq<string>, cc: seq<string>, bcc: seq<string>)
    ensures var env := Envelope(recipients, cc, bcc);
            (forall a :: a in env <==> a in recipients || a in cc || a in bcc) &&
            NoDuplicates(env) &&
            forall i, j :: 0 <= i < j < |env| ==>
              FirstIndex(recipients + cc + bcc, env[i]) < FirstIndex(recipients + cc + bcc, env[j])
  {
    DedupSpec(recipients + cc + bcc);
  }

  /** The To header carries the recipients joined by ", ", a Cc header is
      present exactly when the cc list is non-empty, and no header is
      called Bcc, so a bcc address reaches the server only through the
      envelope. */
  lemma HeadersSpec(sender: string, recipients: seq<string>, cc: seq<string>, date: string, subject: string)
    ensures var hs := Headers(sender, recipients, cc, date, subject);
            hs[1] == Header("To", Join(recipients, ", ")) &&
            ((exists i :: 0 <= i < |hs| && hs[i].name == "Cc") <==> |cc| > 0) &&
            (|cc| > 0 ==> hs[2] == Header("Cc", Join(cc, ", "))) &&
            (forall i :: 0 <= i < |hs| ==> hs[i].name != "Bcc")
  {
    var hs := Headers(sender, recipients, cc, date, subject);
    if |cc| > 0 {
      assert hs[2].name == "Cc";
    } else {
      assert hs == [Header("From", sender), Header("To", Join(recipients, ", ")),
                    Header("Date", date), Header("Subject", subject)];
    }
  }

  /** `email_reporting`: from the Python mailbox to the reporting team, as
      plain text. */
  method EmailReporting(subject: string, body: string, date: string) returns (sent: Sent)
    ensures sent.sender == ReportingSender && sent.envelope == [ReportingRecipient]
    ensures sent.headers == Headers(ReportingSender, [ReportingRecipient], [], date, subject)
    ensures sent.parts == [TextPart(body, "plain")]
  {
    sent := SendEmail(ReportingSender, [ReportingRecipient], subject, body, "plain", None, None, None, date);
    assert [ReportingRecipient] + [] + [] == [ReportingRecipient];
    assert Dedup([ReportingRecipient]) == Dedup([ReportingRecipient][..0]) + [ReportingRecipient];
  }

  /** `send_html_email`: the body is sent as `text/html`. */
  method SendHtmlEmail(sender: string, recipients: seq<string>, subject: string, html: string, date: string)
    returns (sent: Sent)
    ensures sent.sender == sender && sent.envelope == Envelope(recipients, [], [])
    ensures sent.headers == Headers(sender, recipients, [], date, subject)
    ensures sent.parts == [TextPart(html, "html")]
  {
    sent := SendEmail(sender, recipients, subject, html, "html", None, None, None, date);
  }

  /** `email_with_attachments`: the message defaults to None, which the
      text part cannot encode, so nothing is sent without a message. */
  method EmailWithAttachments(sender: string, recipients: seq<string>, subject: string, message: Option<string>,
                              attachments: Option<seq<string>>, date: string)
    returns (r: Result<Sent, Exn>)
    ensures message.None? ==> r == Err(AttributeError("'NoneType' object has no attribute 'encode'"))
    ensures message.Some? ==>
              r.Ok? && r.value.envelope == Envelope(recipients, [], []) &&
              r.value.headers == Headers(sender, recipients, [], date, subject) &&
              |r.value.parts| == 1 + |OrEmpty(attachments)| &&
              r.value.parts[0] == TextPart(message.value, "plain")
  {
    if message.None? {
      return Err(AttributeError("'NoneType' object has no attribute 'encode'"));
    }
    var sent := SendEmail(sender, recipients, subject, message.value, "plain", attachments, None, None, date);
    r := Ok(sent);
  }
}
