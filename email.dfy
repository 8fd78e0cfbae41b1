/**
 * `notification.EmailService`: the e-mail that carries an invoice. The
 * subject and the HTML body are built from the configured texts, the
 * customer's last name and the invoice identifier; the message has the body
 * as its first part and the invoice file as its second. Sessions, SMTP and
 * sending are not part of this model.
 */
module Notification {
  import opened Results

  const LINE_BREAK := "<br/>"
  const DOUBLE_LINE_BREAK := "<br/><br/>"
  const CONTENT_TYPE := "text/html; charset=utf-8"

  /** `new InternetAddress(address, personal)`. */
  datatype Sender = Sender(address: string, personal: string)

  datatype BodyPart =
    | TextPart(content: string, contentType: string)
    | Attachment(path: string)

  /** The message as it is handed to the transport. */
  datatype MailMessage = MailMessage(from: Sender, recipients: string, subject: string, parts: seq<BodyPart>)

  class EmailService {
    const from: Sender
    const subject: string
    const salutation: string
    const message: string
    const greetings: string
    const signature: string

    /** Keeps the configured texts unchanged; the SMTP settings only configure
        the session, which is not modelled. */
    constructor (address: string, fromName: string, subject: string, salutation: string,
                 message: string, greetings: string, signature: string)
      ensures from == Sender(address, fromName)
      ensures this.subject == subject && this.salutation == salutation && this.message == message
      ensures this.greetings == greetings && this.signature == signature
    {
      from := Sender(address, fromName);
      this.subject := subject;
      this.salutation := salutation;
      this.message := message;
      this.greetings := greetings;
      this.signature := signature;
    }

    /** The configured subject immediately followed by the invoice identifier. */
    function Subject(id: string): (s: string)
      ensures |s| == |subject| + |id| && s[..|subject|] == subject && s[|subject|..] == id
    {
      subject + id
    }

    /** What follows the last name in every body: a comma, the message
        between two double line breaks, then greetings and signature on
        separate lines. */
    function Closing(): string {
      "," + DOUBLE_LINE_BREAK + message + DOUBLE_LINE_BREAK + greetings + LINE_BREAK + signature
    }

    /** The HTML body: salutation, last name, then the closing. */
    function Body(lastName: string): (b: string)
      ensures |b| == |salutation| + |lastName| + |Closing()|
      ensures b[..|salutation|] == salutation && b[|salutation|..|salutation| + |lastName|] == lastName
      ensures b[|salutation| + |lastName|..] == Closing()
    {
      salutation + lastName + Closing()
    }

    /** `sendAttachedMimeMessage` up to `Transport.send`. */
    function Message(to: string, lastName: string, id: string, attachmentPath: string): MailMessage {
      MailMessage(from, to, Subject(id), [TextPart(Body(lastName), CONTENT_TYPE), Attachment(attachmentPath)])
    }

    /** The identifier a subject carries: what follows the configured subject. */
    function IdOfSubject(s: string): Option<string> {
      if subject <= s then Some(s[|subject|..]) else None
    }

    /** The last name a body carries: what lies between the salutation and the closing. */
    function LastNameOfBody(b: string): Option<string> {
      var closing := Closing();
      if |salutation| + |closing| <= |b| && b[..|salutation|] == salutation && b[|b| - |closing|..] == closing
      then Some(b[|salutation|..|b| - |closing|])
      else None
    }

    /** The identifier is read back from the subject. */
    lemma SubjectRoundTrip(id: string)
      ensures IdOfSubject(Subject(id)) == Some(id)
    {
      assert subject <= Subject(id);
    }

    /** The last name is read back from the body. */
    lemma BodyRoundTrip(lastName: string)
      ensures LastNameOfBody(Body(lastName)) == Some(lastName)
    {
      var b := Body(lastName);
      var closing := Closing();
      assert b == salutation + lastName + closing;
      assert b[..|salutation|] == salutation;
      assert b[|b| - |closing|..] == closing;
      assert b[|salutation|..|b| - |closing|] == lastName;
    }

    /** Different invoices get different subjects, different last names different bodies. */
    lemma SubjectAndBodyInjective(id1: string, id2: string, lastName1: string, lastName2: string)
      ensures Subject(id1) == Subject(id2) <==> id1 == id2
      ensures Body(lastName1) == Body(lastName2) <==> lastName1 == lastName2
    {
      if Subject(id1) == Subject(id2) {
        SubjectRoundTrip(id1);
        SubjectRoundTrip(id2);
      }
      if Body(lastName1) == Body(lastName2) {
        BodyRoundTrip(lastName1);
        BodyRoundTrip(lastName2);
      }
    }

    /** The message has exactly two parts, the HTML body first and the
        attachment second, and its subject and body give back the invoice
        identifier and the customer's last name. */
    lemma MessageCarriesInvoice(to: string, lastName: string, id: string, attachmentPath: string)
      ensures var m := Message(to, lastName, id, attachmentPath);
        && m.from == from && m.recipients == to
        && |m.parts| == 2
        && m.parts[0].TextPart? && m.parts[0].contentType == CONTENT_TYPE
        && LastNameOfBody(m.parts[0].content) == Some(lastName)
        && IdOfSubject(m.subject) == Some(id)
        && m.parts[1] == Attachment(attachmentPath)
    {
      SubjectRoundTrip(id);
      BodyRoundTrip(lastName);
    }
  }
}
