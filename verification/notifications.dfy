/** The notification service's `NotificationService`: compose the payer's
    e-mail from a processed event, send it, then record it. */
module Notifications {
  import opened Common
  import opened CoreEvents

  /** The fallback recipient when the event carries no e-mail. */
  const AdminEmail := "admin@banking.com"
  const SubjectPrefix := "Payment update: "

  /** `NotificationEntity` without its generated id and timestamp. */
  datatype Notification = Notification(paymentId: Option<Id>, recipientEmail: string, subject: string, content: string)

  /** One collaborator call, whether or not it then throws. */
  datatype NotificationCall =
    | SendEmail(to: string, subject: string, content: string)
    | SaveNotification(record: Notification)

  /** The recipient: the payer's e-mail whenever it is not `null` (an empty
      one included), else the administrator. */
  function Recipient(event: ProcessedEvent): (to: string)
    ensures event.payerEmail.Some? ==> to == event.payerEmail.value
    ensures event.payerEmail.None? ==> to == AdminEmail
  {
    match event.payerEmail
    case Some(e) => e
    case None => AdminEmail
  }

  /** The subject line. */
  function Subject(event: ProcessedEvent): (s: string)
    ensures SubjectPrefix <= s && s[|SubjectPrefix|..] == Text(event.status)
  {
    SubjectPrefix + Text(event.status)
  }

  /** The body, as the format string renders it; a `null` argument renders
      as "null" (the greeting uses the event's e-mail, not the recipient). */
  function Body(event: ProcessedEvent): string {
    "Hi " + Text(event.payerEmail) + ", \n\nYour payment ID " + Text(event.paymentId) +
    " has been processed. \nStatus: " + Text(event.status) + "\nReason: " + Text(event.description)
  }

  /** The body mentions the payment id, the status and the description. */
  lemma BodyMentions(event: ProcessedEvent)
    ensures IsInfix(Text(event.paymentId), Body(event))
    ensures IsInfix(Text(event.status), Body(event))
    ensures IsInfix(Text(event.description), Body(event))
  {
    var greeting := "Hi " + Text(event.payerEmail) + ", \n\nYour payment ID ";
    var middle := " has been processed. \nStatus: ";
    var reason := "\nReason: ";
    assert Body(event) == greeting + Text(event.paymentId) + (middle + Text(event.status) + reason + Text(event.description));
    InfixBetween(greeting, Text(event.paymentId), middle + Text(event.status) + reason + Text(event.description));
    assert Body(event) == (greeting + Text(event.paymentId) + middle) + Text(event.status) + (reason + Text(event.description));
    InfixBetween(greeting + Text(event.paymentId) + middle, Text(event.status), reason + Text(event.description));
    assert Body(event) == (greeting + Text(event.paymentId) + middle + Text(event.status) + reason) + Text(event.description) + "";
    InfixBetween(greeting + Text(event.paymentId) + middle + Text(event.status) + reason, Text(event.description), "");
  }

  /** The record saved for an event: what was sent, and to whom. */
  function Record(event: ProcessedEvent): (n: Notification)
    ensures n.paymentId == event.paymentId && n.recipientEmail == Recipient(event)
    ensures n.subject == Subject(event) && n.content == Body(event)
  {
    Notification(event.paymentId, Recipient(event), Subject(event), Body(event))
  }

  /** `notifyPaymentProcessed`: a `null` event throws before any call; the
      e-mail is sent first, and the record is saved only when the send
      returned; a failing save propagates after the e-mail went out. */
  method NotifyPaymentProcessed(event: Option<ProcessedEvent>, sendAnswer: Answer, saveAnswer: Answer)
    returns (r: Outcome<string>, calls: seq<NotificationCall>)
    ensures event.None? ==> r == Fail(NullPointerMessage) && calls == []
    ensures event.Some? ==> |calls| >= 1 && calls[0] == SendEmail(Recipient(event.value), Subject(event.value), Body(event.value))
    ensures event.Some? && sendAnswer.Throws? ==> r == Fail(sendAnswer.message) && |calls| == 1
    ensures event.Some? && sendAnswer.Returns? ==>
      r == AsOutcome(saveAnswer) && calls == [calls[0], SaveNotification(Record(event.value))]
    ensures forall i :: 0 <= i < |calls| && calls[i].SaveNotification? ==> i > 0 && calls[i - 1].SendEmail?
  {
    if event.None? {
      return Fail(NullPointerMessage), [];
    }
    var e := event.value;
    var toEmail := Recipient(e);
    var subject := Subject(e);
    var content := Body(e);
    calls := [SendEmail(toEmail, subject, content)];
    r := AsOutcome(sendAnswer);
    if r.Fail? {
      return;
    }
    calls := calls + [SaveNotification(Notification(e.paymentId, toEmail, subject, content))];
    r := AsOutcome(saveAnswer);
  }
}
