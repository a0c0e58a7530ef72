/** The merchant service's `PaymentEventListener`: credit the payee of a
    PENDING payment and answer on "payment-events". */
module MerchantListener {
  import opened Common
  import opened CoreEvents
  import opened MerchantData
  import opened MerchantServices

  const ResponseTopic := "payment-events"
  const SuccessDescription := "Payment successfully processed by the merchant."
  const FailurePrefix := "Falha no processamento: "

  /** The APPROVED answer: payment and payer ids, an empty e-mail. */
  function ApprovedResponse(event: PaymentCreatedEvent): (ev: ProcessedEvent)
    ensures ev.paymentId == event.paymentId && ev.payerId == event.payerId
    ensures ev.status == Some("APPROVED") && ev.payerEmail == Some("")
    ensures ev.description == Some(SuccessDescription)
  {
    ProcessedEvent(event.paymentId, event.payerId, None, None, None, Some(Approved.Name()), Some(""), Some(SuccessDescription))
  }

  /** The REJECTED answer: payment and payer ids and the exception's message. */
  function RejectedResponse(event: PaymentCreatedEvent, message: string): (ev: ProcessedEvent)
    ensures ev.paymentId == event.paymentId && ev.payerId == event.payerId
    ensures ev.status == Some("REJECTED") && ev.payerEmail == None
    ensures ev.description == Some(FailurePrefix + message)
  {
    ProcessedEvent(event.paymentId, event.payerId, None, None, None, Some(Rejected.Name()), None, Some(FailurePrefix + message))
  }

  /** The `catch` block: answer REJECTED; with a `null` payment id the key's
      `toString()` throws out of the handler instead. */
  function Refusal(event: PaymentCreatedEvent, message: string, rejectedSend: Answer): Reaction {
    if event.paymentId.None? then Reaction(Fail(NullPointerMessage), [])
    else Reaction(AsOutcome(rejectedSend), [ProcessedSend(ResponseTopic, event.paymentId.value, RejectedResponse(event, message))])
  }

  /** What the handler does with a PENDING event, given the outcome of the
      lookup and credit. */
  function Respond(event: PaymentCreatedEvent, credit: Outcome<string>, approvedSend: Answer, rejectedSend: Answer): Reaction {
    match credit
    case Fail(m) => Refusal(event, m, rejectedSend)
    case Pass =>
      if event.paymentId.None? then Refusal(event, NullPointerMessage, rejectedSend)
      else
        var approved := ProcessedSend(ResponseTopic, event.paymentId.value, ApprovedResponse(event));
        match approvedSend
        case Returns => Reaction(Pass, [approved])
        case Throws(m) =>
          var refusal := Refusal(event, m, rejectedSend);
          Reaction(refusal.outcome, [approved] + refusal.sent)
  }

  /** The lookup, the credit and its save as one outcome: `getMerchant` fails
      exactly as the lookup inside `processReceivedPayment` would, and a save
      that throws (`saveAnswer`) fails the credit with the store's message. */
  function CreditOutcome(rows: map<Id, MerchantEntity>, event: PaymentCreatedEvent, saveAnswer: Answer): (r: Outcome<string>)
    ensures r.Pass? <==> ReceiveOutcome(rows, event.payeeId, event.amount).Success? && saveAnswer.Returns?
    ensures ReceiveOutcome(rows, event.payeeId, event.amount).Failure? ==>
      r == Fail(ReceiveOutcome(rows, event.payeeId, event.amount).error)
    ensures ReceiveOutcome(rows, event.payeeId, event.amount).Success? && saveAnswer.Throws? ==>
      r == Fail(saveAnswer.message)
  {
    match ReceiveOutcome(rows, event.payeeId, event.amount)
    case Success(_) => AsOutcome(saveAnswer)
    case Failure(m) => Fail(m)
  }

  /** With a payment id, the handler answers once or twice on
      "payment-events", keyed by the id; the last answer is APPROVED exactly
      when the credit and its answer went through, and a REJECTED answer
      explains itself with the failure prefix. */
  lemma AnswerAnnounces(event: PaymentCreatedEvent, credit: Outcome<string>, approvedSend: Answer, rejectedSend: Answer)
    requires event.paymentId.Some?
    ensures var x := Respond(event, credit, approvedSend, rejectedSend);
      && 1 <= |x.sent| <= 2
      && (forall s :: s in x.sent ==> s.topic == ResponseTopic && s.key == event.paymentId.value)
      && (x.sent[|x.sent| - 1].event.status == Some("APPROVED") <==> credit.Pass? && approvedSend.Returns?)
      && (forall s :: s in x.sent && s.event.status == Some("REJECTED") ==>
            s.event.description.Some? && FailurePrefix <= s.event.description.value)
  {
  }

  /** If the APPROVED answer throws, a REJECTED one follows although the
      payee was already credited. */
  lemma CreditedThenRejected(rows: map<Id, MerchantEntity>, event: PaymentCreatedEvent, message: string, rejectedSend: Answer)
    requires event.paymentId.Some? && CreditOutcome(rows, event, Returns).Pass?
    ensures var x := Respond(event, CreditOutcome(rows, event, Returns), Throws(message), rejectedSend);
      x.sent == [ProcessedSend(ResponseTopic, event.paymentId.value, ApprovedResponse(event)),
                 ProcessedSend(ResponseTopic, event.paymentId.value, RejectedResponse(event, message))]
    ensures ReceiveOutcome(rows, event.payeeId, event.amount).value[event.payeeId.value].balance ==
      rows[event.payeeId.value].balance + event.amount.value
  {
  }

  /** A save of the credited row that throws is caught like any other
      failure: the only answer is REJECTED with the store's message. */
  lemma SaveFailureRejected(rows: map<Id, MerchantEntity>, event: PaymentCreatedEvent, message: string,
                            approvedSend: Answer, rejectedSend: Answer)
    requires event.paymentId.Some? && ReceiveOutcome(rows, event.payeeId, event.amount).Success?
    ensures var x := Respond(event, CreditOutcome(rows, event, Throws(message)), approvedSend, rejectedSend);
      x.sent == [ProcessedSend(ResponseTopic, event.paymentId.value, RejectedResponse(event, message))]
      && x.outcome == AsOutcome(rejectedSend)
  {
  }

  /** `PaymentEventListener`, over the merchant service. */
  class PaymentEventListener {
    const merchantService: MerchantService

    constructor (merchantService: MerchantService)
      ensures this.merchantService == merchantService
    {
      this.merchantService := merchantService;
    }

    /** `handlePaymentCreatedEvent`: an event that is not PENDING is ignored;
        otherwise the payee (and only the payee) is credited as
        `processReceivedPayment` does (a save that throws, `saveAnswer`, is
        caught like any other failure), and the handler answers as `Respond`
        says. The payer is never debited here. */
    method HandlePaymentCreatedEvent(event: PaymentCreatedEvent, saveAnswer: Answer, approvedSend: Answer, rejectedSend: Answer)
      returns (r: Outcome<string>, sent: seq<ProcessedSend>)
      requires merchantService.repository.Valid()
      modifies merchantService.repository
      ensures merchantService.repository.Valid()
      ensures event.status != Some(Pending) ==>
        r == Pass && sent == [] && merchantService.repository.rows == old(merchantService.repository.rows)
      ensures event.status == Some(Pending) ==>
        var rows := old(merchantService.repository.rows);
        var next := ReceiveOutcome(rows, event.payeeId, event.amount);
        && Reaction(r, sent) == Respond(event, CreditOutcome(rows, event, saveAnswer), approvedSend, rejectedSend)
        && merchantService.repository.rows == if CreditOutcome(rows, event, saveAnswer).Pass? then next.value else rows
    {
      if event.status != Some(Pending) {
        return Pass, [];
      }
      var failure: string;
      sent := [];
      var found := merchantService.GetMerchant(event.payeeId);
      if found.Failure? {
        failure := found.error;
      } else {
        var credited := merchantService.ProcessReceivedPayment(event.payeeId, event.amount, saveAnswer);
        if credited.Fail? {
          failure := credited.error;
        } else if event.paymentId.None? {
          failure := NullPointerMessage;
        } else {
          sent := [ProcessedSend(ResponseTopic, event.paymentId.value, ApprovedResponse(event))];
          if approvedSend.Returns? {
            return Pass, sent;
          }
          failure := approvedSend.message;
        }
      }
      if event.paymentId.None? {
        return Fail(NullPointerMessage), [];
      }
      sent := sent + [ProcessedSend(ResponseTopic, event.paymentId.value, RejectedResponse(event, failure))];
      r := AsOutcome(rejectedSend);
    }
  }
}
