/** `PaymentService`: payment intake (`createPayment`) and the approval step
    the saga orchestrator relies on (`approvedPayment`). */
module PaymentIntake {
  import opened Common
  import opened CoreEvents
  import opened PaymentModel
  import opened PaymentData
  import opened PaymentLedger
  import opened PaymentMapping

  /** The controller's `PaymentDto`. */
  datatype PaymentRequest = PaymentRequest(payerId: Option<Id>, payeeId: Option<Id>, amount: Option<Money>, currency: Option<string>)

  /** The topic `createPayment` publishes to. */
  const CreatedTopic := "payment-events"

  /** Message of the `NoSuchElementException` of an empty `Optional`. */
  const NoValueMessage := "No value present"

  /** One collaborator call of `createPayment`, whether or not it then throws. */
  datatype IntakeCall =
    | SaveRow(entity: PaymentEntity)
    | SendCreated(topic: string, key: Id, event: PaymentCreatedEvent)

  /** The row `createPayment` saves: the request's fields under the new id,
      PENDING, and no payer e-mail. */
  function PendingRow(id: Id, request: PaymentRequest): (e: PaymentEntity)
    ensures e.id == Some(id) && e.status == Some(Pending) && e.payerEmail == None
    ensures e.payerId == request.payerId && e.payeeId == request.payeeId
    ensures e.amount == request.amount && e.currency == request.currency
  {
    PaymentEntity(Some(id), request.payerId, None, request.payeeId, request.amount, request.currency, Some(Pending))
  }

  /** The `PaymentCreatedEvent` built from the payment after it was saved. */
  function CreatedEvent(e: PaymentEntity): (ev: PaymentCreatedEvent)
    ensures ev.paymentId == e.id && ev.payerId == e.payerId && ev.payeeId == e.payeeId
    ensures ev.amount == e.amount && ev.currency == e.currency && ev.status == e.status
    ensures ev.payerEmail == None
  {
    PaymentCreatedEvent(e.id, e.payerId, e.payeeId, e.amount, e.currency, e.status, None)
  }

  /** What `approvedPayment` throws, if anything: the lookup (a `null` id,
      then an absent row), the `approve` guard, then the save and the
      ledger append. */
  function ApprovalOutcome(rows: map<Id, PaymentEntity>, paymentId: Option<Id>, save: Answer, append: Answer): (r: Outcome<string>)
    ensures r.Pass? <==>
      paymentId.Some? && paymentId.value in rows && rows[paymentId.value].status == Some(Pending)
      && save.Returns? && append.Returns?
    ensures paymentId.None? ==> r == Fail(NullIdMessage)
    ensures paymentId.Some? && paymentId.value !in rows ==> r == Fail(NoValueMessage)
    ensures paymentId.Some? && paymentId.value in rows && rows[paymentId.value].status != Some(Pending) ==>
      r == Fail(ApproveGuardMessage)
  {
    if paymentId.None? then Fail(NullIdMessage)
    else if paymentId.value !in rows then Fail(NoValueMessage)
    else match Transition(rows[paymentId.value].status, Approved)
      case Failure(m) => Fail(m)
      case Success(_) =>
        if save.Throws? then Fail(save.message)
        else AsOutcome(append)
  }

  /** The rows after `approvedPayment`: the APPROVED row once its save went
      through (a later failing append does not undo it), else as before. */
  function ApprovalStored(rows: map<Id, PaymentEntity>, paymentId: Option<Id>, save: Answer): (r: map<Id, PaymentEntity>)
    ensures r.Keys == rows.Keys
    ensures forall k :: k in rows && Some(k) != paymentId ==> r[k] == rows[k]
    ensures paymentId.Some? && paymentId.value in rows ==>
      r[paymentId.value] == if rows[paymentId.value].status == Some(Pending) && save.Returns?
                            then WithStatus(rows[paymentId.value], Approved) else rows[paymentId.value]
  {
    if paymentId.Some? && paymentId.value in rows && rows[paymentId.value].status == Some(Pending) && save.Returns?
    then rows[paymentId.value := WithStatus(rows[paymentId.value], Approved)]
    else rows
  }

  /** A row that is not PENDING is never changed by `approvedPayment`, and the
      call then fails with the guard's message. */
  lemma SettledPaymentsStay(rows: map<Id, PaymentEntity>, id: Id, save: Answer, append: Answer)
    requires id in rows && rows[id].status != Some(Pending)
    ensures ApprovalStored(rows, Some(id), save) == rows
    ensures ApprovalOutcome(rows, Some(id), save, append) == Fail(ApproveGuardMessage)
  {
  }

  /** Approving twice: the second call on the rows the first left behind
      fails with the guard's message and changes nothing. */
  lemma ApproveTwiceFails(rows: map<Id, PaymentEntity>, id: Id, save1: Answer, append1: Answer, save2: Answer, append2: Answer)
    requires ApprovalOutcome(rows, Some(id), save1, append1).Pass?
    ensures ApprovalOutcome(ApprovalStored(rows, Some(id), save1), Some(id), save2, append2) == Fail(ApproveGuardMessage)
    ensures ApprovalStored(ApprovalStored(rows, Some(id), save1), Some(id), save2) == ApprovalStored(rows, Some(id), save1)
  {
    var after := ApprovalStored(rows, Some(id), save1);
    assert after[id].status == Some(Approved);
    SettledPaymentsStay(after, id, save2, append2);
  }

  /** `PaymentService`, with the payment rows and the ledger it appends to. */
  class PaymentService {
    const repository: PaymentRepository
    const eventStore: PaymentEventStore

    ghost predicate Valid()
      reads repository
    {
      repository.Valid() && eventStore.repository == repository
    }

    constructor (repository: PaymentRepository, eventStore: PaymentEventStore)
      requires repository.Valid() && eventStore.repository == repository
      ensures this.repository == repository && this.eventStore == eventStore && Valid()
    {
      this.repository := repository;
      this.eventStore := eventStore;
    }

    /** `createPayment`: validation runs first and an invalid request touches
        nothing; then the PENDING row under the new id `freshId` is saved, and
        only when the save returned is the created event sent, keyed by that
        id. A failing send propagates after the row was saved. The ledger is
        not written. */
    method CreatePayment(request: PaymentRequest, freshId: Id, saveAnswer: Answer, sendAnswer: Answer)
      returns (r: Outcome<string>, calls: seq<IntakeCall>)
      requires Valid()
      modifies repository
      ensures Valid()
      ensures var v := Validate(request.amount, request.currency, request.payerId, request.payeeId);
        v.Fail? ==> r == v && calls == [] && repository.rows == old(repository.rows)
      ensures var v := Validate(request.amount, request.currency, request.payerId, request.payeeId);
        var row := PendingRow(freshId, request);
        v.Pass? ==>
          && (saveAnswer.Throws? ==>
                r == Fail(saveAnswer.message) && calls == [SaveRow(row)] && repository.rows == old(repository.rows))
          && (saveAnswer.Returns? ==>
                && r == AsOutcome(sendAnswer)
                && calls == [SaveRow(row), SendCreated(CreatedTopic, freshId, CreatedEvent(row))]
                && repository.rows == old(repository.rows)[freshId := row])
    {
      var payment := new Payment(None, request.payerId, None, request.payeeId, request.amount, request.currency, None);
      r := payment.Initialize();
      if r.Fail? {
        return r, [];
      }
      payment.id := Some(freshId);
      var entity := ToEntity(payment);
      calls := [SaveRow(entity)];
      r := repository.Save(entity, saveAnswer);
      if r.Fail? {
        return;
      }
      var created := PaymentCreatedEvent(payment.id, payment.payerId, payment.payeeId, payment.amount,
                                         payment.currency, payment.status, None);
      calls := calls + [SendCreated(CreatedTopic, payment.id.value, created)];
      r := AsOutcome(sendAnswer);
    }

    /** `approvedPayment`: look the payment up, apply `approve`'s guard, save
        the APPROVED row, then append PAYMENT_APPROVED. */
    method ApprovedPayment(paymentId: Option<Id>, saveAnswer: Answer, appendAnswer: Answer) returns (r: Outcome<string>)
      requires Valid()
      modifies repository, eventStore`events
      ensures Valid()
      ensures r == ApprovalOutcome(old(repository.rows), paymentId, saveAnswer, appendAnswer)
      ensures repository.rows == ApprovalStored(old(repository.rows), paymentId, saveAnswer)
      ensures eventStore.events == old(eventStore.events) +
        if r.Pass? then [OutcomeEvent(paymentId.value, WithStatus(old(repository.rows)[paymentId.value], Approved), true)] else []
    {
      if paymentId.None? {
        return Fail(NullIdMessage);
      }
      var id := paymentId.value;
      if id !in repository.rows {
        return Fail(NoValueMessage);
      }
      var row := repository.rows[id];
      var moved := Transition(row.status, Approved);
      if moved.Failure? {
        return Fail(moved.error);
      }
      var approved := row.(status := Some(moved.value));
      r := repository.Save(approved, saveAnswer);
      if r.Fail? {
        return;
      }
      r := eventStore.SavePaymentApprovedEvent(Some(id), appendAnswer);
    }
  }
}
