/** `PaymentSagaOrchestrator`: approve the created payment, then announce the
    verdict on "payment-processed". */
module SagaOrchestration {
  import opened Common
  import opened CoreEvents
  import opened PaymentData
  import opened PaymentLedger
  import opened PaymentIntake

  const ProcessedTopic := "payment-processed"
  const ApprovedDescription := "Pagamento processado com sucesso"
  const RejectedPrefix := "Erro ao processar: "

  /** The processed event the orchestrator builds: everything but status
      and description is copied from the incoming event. */
  function Announcement(event: PaymentCreatedEvent, status: PaymentStatus, description: string): (ev: ProcessedEvent)
    ensures ev.paymentId == event.paymentId && ev.payerId == event.payerId && ev.payeeId == event.payeeId
    ensures ev.amount == event.amount && ev.currency == event.currency && ev.payerEmail == event.payerEmail
    ensures ev.status == Some(status.Name()) && ev.description == Some(description)
  {
    ProcessedEvent(event.paymentId, event.payerId, event.payeeId, event.amount, event.currency,
                   Some(status.Name()), event.payerEmail, Some(description))
  }

  /** The `catch` block: announce the rejection with the exception's message;
      with a `null` payment id the key's `toString()` throws instead. */
  function Rejection(event: PaymentCreatedEvent, message: string, rejectedSend: Answer): (x: Reaction)
    ensures event.paymentId.None? ==> x == Reaction(Fail(NullPointerMessage), [])
    ensures event.paymentId.Some? ==>
      x.outcome == AsOutcome(rejectedSend) &&
      x.sent == [ProcessedSend(ProcessedTopic, event.paymentId.value, Announcement(event, Rejected, RejectedPrefix + message))]
  {
    if event.paymentId.None? then Reaction(Fail(NullPointerMessage), [])
    else Reaction(AsOutcome(rejectedSend), [ProcessedSend(ProcessedTopic, event.paymentId.value, Announcement(event, Rejected, RejectedPrefix + message))])
  }

  /** `handlePaymentCreated` given what the approval did: announce APPROVED
      after a successful approval; any exception (from the approval or from
      that send) leads to the rejection announcement. */
  function React(event: PaymentCreatedEvent, approval: Outcome<string>, approvedSend: Answer, rejectedSend: Answer): Reaction {
    match approval
    case Fail(m) => Rejection(event, m, rejectedSend)
    case Pass =>
      if event.paymentId.None? then Rejection(event, NullPointerMessage, rejectedSend)
      else
        var approvedAnnouncement := ProcessedSend(ProcessedTopic, event.paymentId.value, Announcement(event, Approved, ApprovedDescription));
        match approvedSend
        case Returns => Reaction(Pass, [approvedAnnouncement])
        case Throws(m) =>
          var rejection := Rejection(event, m, rejectedSend);
          Reaction(rejection.outcome, [approvedAnnouncement] + rejection.sent)
  }

  /** With a payment id, one or two events are sent, all on "payment-processed",
      keyed by the id and copying the incoming event; the last one says APPROVED
      exactly when the approval and its announcement both went through, and
      only the REJECTED send can make the handler throw. */
  lemma ReactionAnnounces(event: PaymentCreatedEvent, approval: Outcome<string>, approvedSend: Answer, rejectedSend: Answer)
    requires event.paymentId.Some?
    ensures var x := React(event, approval, approvedSend, rejectedSend);
      && 1 <= |x.sent| <= 2
      && (forall s :: s in x.sent ==>
            && s.topic == ProcessedTopic && s.key == event.paymentId.value
            && s.event.paymentId == event.paymentId && s.event.payerId == event.payerId
            && s.event.amount == event.amount && s.event.payerEmail == event.payerEmail)
      && (x.sent[|x.sent| - 1].event.status == Some("APPROVED") <==> approval.Pass? && approvedSend.Returns?)
      && (x.outcome.Fail? ==> x.sent[|x.sent| - 1].event.status == Some("REJECTED") && rejectedSend.Throws?)
  {
  }

  /** A failed approval is announced as REJECTED with the approval's message. */
  lemma FailedApprovalAnnounced(event: PaymentCreatedEvent, message: string, approvedSend: Answer, rejectedSend: Answer)
    requires event.paymentId.Some?
    ensures React(event, Fail(message), approvedSend, rejectedSend).sent ==
      [ProcessedSend(ProcessedTopic, event.paymentId.value, Announcement(event, Rejected, RejectedPrefix + message))]
  {
  }

  /** If the APPROVED announcement throws, a REJECTED one follows it,
      although the payment was approved and stays APPROVED. */
  lemma ApprovedThenRejected(rows: map<Id, PaymentEntity>, event: PaymentCreatedEvent, save: Answer, append: Answer,
                             message: string, rejectedSend: Answer)
    requires ApprovalOutcome(rows, event.paymentId, save, append).Pass?
    ensures var x := React(event, ApprovalOutcome(rows, event.paymentId, save, append), Throws(message), rejectedSend);
      && |x.sent| == 2
      && x.sent[0].event.status == Some("APPROVED")
      && x.sent[1].event.status == Some("REJECTED")
      && x.sent[1].event.description == Some(RejectedPrefix + message)
    ensures ApprovalStored(rows, event.paymentId, save)[event.paymentId.value].status == Some(Approved)
  {
  }

  /** The orchestrator, over the payment service it drives. */
  class PaymentSagaOrchestrator {
    const paymentService: PaymentService

    ghost predicate Valid()
      reads paymentService.repository
    {
      paymentService.Valid()
    }

    constructor (paymentService: PaymentService)
      requires paymentService.Valid()
      ensures this.paymentService == paymentService && Valid()
    {
      this.paymentService := paymentService;
    }

    /** `handlePaymentCreated`: the reaction `React` to the approval's outcome.
        The rejection path calls no reject or compensation: the stored rows
        and the ledger are exactly those the approval left, one
        PAYMENT_APPROVED event when it succeeded and none otherwise. */
    method HandlePaymentCreated(event: PaymentCreatedEvent, saveAnswer: Answer, appendAnswer: Answer,
                                approvedSend: Answer, rejectedSend: Answer)
      returns (r: Outcome<string>, sent: seq<ProcessedSend>)
      requires Valid()
      modifies paymentService.repository, paymentService.eventStore`events
      ensures Valid()
      ensures var approval := ApprovalOutcome(old(paymentService.repository.rows), event.paymentId, saveAnswer, appendAnswer);
        Reaction(r, sent) == React(event, approval, approvedSend, rejectedSend)
      ensures paymentService.repository.rows == ApprovalStored(old(paymentService.repository.rows), event.paymentId, saveAnswer)
      ensures var approval := ApprovalOutcome(old(paymentService.repository.rows), event.paymentId, saveAnswer, appendAnswer);
        paymentService.eventStore.events == old(paymentService.eventStore.events) +
          if approval.Pass?
          then [OutcomeEvent(event.paymentId.value, WithStatus(old(paymentService.repository.rows)[event.paymentId.value], Approved), true)]
          else []
    {
      var approval := paymentService.ApprovedPayment(event.paymentId, saveAnswer, appendAnswer);
      var failure: string;
      if approval.Pass? {
        if event.paymentId.None? {
          failure := NullPointerMessage;
        } else {
          var approvedAnnouncement := ProcessedSend(ProcessedTopic, event.paymentId.value, Announcement(event, Approved, ApprovedDescription));
          sent := [approvedAnnouncement];
          if approvedSend.Returns? {
            return Pass, sent;
          }
          failure := approvedSend.message;
        }
      } else {
        sent := [];
        failure := approval.error;
      }
      if event.paymentId.None? {
        return Fail(NullPointerMessage), [];
      }
      sent := sent + [ProcessedSend(ProcessedTopic, event.paymentId.value, Announcement(event, Rejected, RejectedPrefix + failure))];
      r := AsOutcome(rejectedSend);
    }
  }
}
