/**
  send_email: refuses to send unless the six delivery settings are all
  truthy; otherwise builds one HTML message and hands it, with the
  connection settings, to an SMTP session (STARTTLS, login, sendmail). The
  session is a parameter: a function from what it is given to what it did.
 */
module Notifier {
  import opened Values

  /** The MIME message: subject, From, To and one text/html part. */
  datatype Message = Message(subject: string, from: PyValue, to: PyValue, html: string)

  /** Everything the SMTP session is handed: where to connect, how to log in, what to send. */
  datatype Envelope = Envelope(
    server: PyValue,
    port: PyValue,
    username: PyValue,
    password: PyValue,
    message: Message)

  /** What the session did: the message was handed off, or one of the three caught exception kinds. */
  datatype SmtpOutcome =
    | Delivered
    | AuthenticationError(message: string)
    | SmtpError(message: string)
    | OtherError(message: string)

  /**
    The guard of send_email: receiver, sender, server, port, username and
    password must all be truthy. Subject and body are not checked.
   */
  predicate EmailConfigComplete(receiver: PyValue, sender: PyValue, server: PyValue, port: PyValue, username: PyValue, password: PyValue)
  {
    Truthy(receiver) && Truthy(sender) && Truthy(server) && Truthy(port) && Truthy(username) && Truthy(password)
  }

  /** send_email(...): true only when the guard passes and the session delivers the message it was given. */
  function SendEmail(subject: string, bodyHtml: string, receiver: PyValue, sender: PyValue,
                     server: PyValue, port: PyValue, username: PyValue, password: PyValue,
                     session: Envelope -> SmtpOutcome): (sent: bool)
    ensures sent <==>
              && EmailConfigComplete(receiver, sender, server, port, username, password)
              && session(Envelope(server, port, username, password, Message(subject, sender, receiver, bodyHtml))).Delivered?
  {
    if !EmailConfigComplete(receiver, sender, server, port, username, password) then
      false
    else
      var msg := Message(subject, sender, receiver, bodyHtml);
      match session(Envelope(server, port, username, password, msg))
      case Delivered => true
      case AuthenticationError(_) => false
      case SmtpError(_) => false
      case OtherError(_) => false
  }

  /** With any of the six settings falsy, nothing is sent and no session is opened: the result is false whatever the session would do. */
  lemma IncompleteConfigNeverConnects(subject: string, bodyHtml: string, receiver: PyValue, sender: PyValue,
                                      server: PyValue, port: PyValue, username: PyValue, password: PyValue,
                                      s1: Envelope -> SmtpOutcome, s2: Envelope -> SmtpOutcome)
    requires !Truthy(receiver) || !Truthy(sender) || !Truthy(server) || !Truthy(port) || !Truthy(username) || !Truthy(password)
    ensures !SendEmail(subject, bodyHtml, receiver, sender, server, port, username, password, s1)
    ensures SendEmail(subject, bodyHtml, receiver, sender, server, port, username, password, s1)
         == SendEmail(subject, bodyHtml, receiver, sender, server, port, username, password, s2)
  {
  }

  /** An empty subject or body does not stop the send: the guard never looks at them. */
  lemma SubjectAndBodyUnchecked(receiver: PyValue, sender: PyValue, server: PyValue, port: PyValue,
                                username: PyValue, password: PyValue, session: Envelope -> SmtpOutcome)
    requires EmailConfigComplete(receiver, sender, server, port, username, password)
    requires session(Envelope(server, port, username, password, Message("", sender, receiver, ""))).Delivered?
    ensures SendEmail("", "", receiver, sender, server, port, username, password, session)
  {
  }

  /** Every caught failure of the session (authentication, SMTP, anything else) is reported as false. */
  lemma SessionFailureIsFalse(subject: string, bodyHtml: string, receiver: PyValue, sender: PyValue,
                              server: PyValue, port: PyValue, username: PyValue, password: PyValue,
                              session: Envelope -> SmtpOutcome)
    requires !session(Envelope(server, port, username, password, Message(subject, sender, receiver, bodyHtml))).Delivered?
    ensures !SendEmail(subject, bodyHtml, receiver, sender, server, port, username, password, session)
  {
  }
}
