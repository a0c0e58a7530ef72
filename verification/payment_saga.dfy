/** `PaymentSaga`: debit the payer remotely, announce the completed payment,
    approve and record it; on any failure after the debit, compensate once
    and fall into the reject path, whose own failures are swallowed. */
module PaymentSagas {
  import opened Common
  import opened CoreEvents
  import opened PaymentData
  import opened PaymentLedger

  /** An HTTP status code as Spring's `HttpStatusCode` admits it. */
  type StatusCode = c: int | 100 <= c <= 999 witness 200

  /** What the merchant service's debit endpoint does with one request: it
      replies with a status code, or the call throws (connection refused,
      timeout, the client's error handler). */
  datatype Reply = Responded(code: StatusCode) | Unreachable(message: string)

  /** What the collaborators do during one run of the saga, in the order the
      saga may consult them. */
  datatype SagaFaults = SagaFaults(
    debit: Reply,           // the payer debit
    publish: Answer,        // `kafkaTemplate.send` of the completed event
    approvedSave: Answer,   // `paymentRepository.save` of the APPROVED row
    approvedAppend: Answer, // the event repository's save of PAYMENT_APPROVED
    compensation: Reply,    // the payee debit of the compensation (its result is only logged)
    rejectedSave: Answer,   // `paymentRepository.save` of the REJECTED row
    rejectedAppend: Answer) // the event repository's save of PAYMENT_REJECTED

  /** One collaborator call the saga issues, whether or not it then throws. */
  datatype SagaCall =
    | RemoteDebit(merchantId: Option<Id>, amount: Option<Money>)
    | Publish(topic: string, key: Id, event: PaymentCompletedEvent)
    | SavePayment(entity: PaymentEntity)
    | AppendApproved(paymentId: Id)
    | AppendRejected(paymentId: Id)

  const CompletedTopic := "payment-completed"
  const NotFoundPrefix := "Payment not found: "
  const PublishFailedMessage := "Kafka publish failed"

  /** `callMerchantServiceDebit`: true exactly for a 2xx reply; every
      exception is caught and becomes false, so the call never throws. */
  function CallMerchantServiceDebit(reply: Reply): (ok: bool)
    ensures ok <==> reply.Responded? && 200 <= reply.code <= 299
  {
    reply.Responded? && reply.code / 100 == 2
  }

  /** The `PaymentCompletedEvent` built from the loaded row: its own fields,
      an empty `payerEmail` and status APPROVED. */
  function CompletedEvent(p: PaymentEntity): (ev: PaymentCompletedEvent)
    ensures ev.paymentId == p.id && ev.payerId == p.payerId && ev.payeeId == p.payeeId
    ensures ev.amount == p.amount && ev.currency == p.currency
    ensures ev.payerEmail == Some("") && ev.status == Some(Approved)
  {
    PaymentCompletedEvent(p.id, p.payerId, Some(""), p.payeeId, p.amount, p.currency, Some(Approved))
  }

  /** `publishPaymentCompletedEvent`: a send that throws is rethrown as a
      `PaymentProcessingException` with its own message. */
  function PublishOutcome(send: Answer): (r: Outcome<string>)
    ensures r.Pass? <==> send.Returns?
    ensures r.Fail? ==> r.error == PublishFailedMessage
  {
    if send.Returns? then Pass else Fail(PublishFailedMessage)
  }

  /** How far the `try` block of `executePaymentSaga` gets. */
  datatype Stage = DebitRefused | PublishFailed | ApprovedSaveFailed | ApprovedAppendFailed | Completed

  function StageOf(f: SagaFaults): Stage {
    if !CallMerchantServiceDebit(f.debit) then DebitRefused
    else if f.publish.Throws? then PublishFailed
    else if f.approvedSave.Throws? then ApprovedSaveFailed
    else if f.approvedAppend.Throws? then ApprovedAppendFailed
    else Completed
  }

  /** The calls of the `try` block, up to and including the one that failed. */
  function ForwardCalls(id: Id, p: PaymentEntity, f: SagaFaults): seq<SagaCall> {
    var debit := RemoteDebit(p.payerId, p.amount);
    var publish := Publish(CompletedTopic, id, CompletedEvent(p));
    var save := SavePayment(WithStatus(p, Approved));
    match StageOf(f)
    case DebitRefused => [debit]
    case PublishFailed => [debit, publish]
    case ApprovedSaveFailed => [debit, publish, save]
    case _ => [debit, publish, save, AppendApproved(id)]
  }

  /** `failSaga`: save the REJECTED row, then append PAYMENT_REJECTED unless
      the save threw. */
  function RejectCalls(id: Id, p: PaymentEntity, f: SagaFaults): seq<SagaCall> {
    [SavePayment(WithStatus(p, Rejected))] + if f.rejectedSave.Returns? then [AppendRejected(id)] else []
  }

  /** Every call of one run of the saga on the loaded row `p`, in order. */
  function SagaCalls(id: Id, p: PaymentEntity, f: SagaFaults): seq<SagaCall> {
    ForwardCalls(id, p, f) +
      match StageOf(f)
      case Completed => []
      case DebitRefused => RejectCalls(id, p, f)
      case _ => [RemoteDebit(p.payeeId, p.amount)] + RejectCalls(id, p, f)
  }

  /** The row stored under the payment's id after the run: the last save
      that went through wins. */
  function SagaStored(p: PaymentEntity, f: SagaFaults): PaymentEntity {
    var stage := StageOf(f);
    if stage == Completed then WithStatus(p, Approved)
    else if f.rejectedSave.Returns? then WithStatus(p, Rejected)
    else if stage == ApprovedAppendFailed then WithStatus(p, Approved)
    else p
  }

  /** The ledger events the run appends. */
  function SagaAppends(id: Id, p: PaymentEntity, f: SagaFaults): seq<PaymentEvent> {
    if StageOf(f) == Completed then [OutcomeEvent(id, WithStatus(p, Approved), true)]
    else if f.rejectedSave.Returns? && f.rejectedAppend.Returns? then [OutcomeEvent(id, WithStatus(p, Rejected), false)]
    else []
  }

  /** The number of "payment-completed" publishes in a call log. */
  function Publishes(calls: seq<SagaCall>): (n: nat)
    ensures n <= |calls|
    ensures n == 0 <==> forall i :: 0 <= i < |calls| ==> !calls[i].Publish?
  {
    if calls == [] then 0
    else (if calls[0].Publish? then 1 else 0) + Publishes(calls[1..])
  }

  /** The remote debit calls of a call log, in order. */
  function RemoteCalls(calls: seq<SagaCall>): (r: seq<SagaCall>)
    ensures |r| <= |calls|
    ensures forall i :: 0 <= i < |r| ==> r[i].RemoteDebit?
    ensures forall c :: c in r <==> c in calls && c.RemoteDebit?
  {
    if calls == [] then []
    else if calls[0].RemoteDebit? then [calls[0]] + RemoteCalls(calls[1..])
    else RemoteCalls(calls[1..])
  }

  lemma {:induction false} PublishesAppend(a: seq<SagaCall>, b: seq<SagaCall>)
    ensures Publishes(a + b) == Publishes(a) + Publishes(b)
  {
    if a == [] {
      assert a + b == b;
    } else {
      assert (a + b)[1..] == a[1..] + b;
      PublishesAppend(a[1..], b);
    }
  }

  lemma {:induction false} RemoteCallsAppend(a: seq<SagaCall>, b: seq<SagaCall>)
    ensures RemoteCalls(a + b) == RemoteCalls(a) + RemoteCalls(b)
  {
    if a == [] {
      assert a + b == b;
    } else {
      assert (a + b)[1..] == a[1..] + b;
      RemoteCallsAppend(a[1..], b);
    }
  }

  /** The reject path issues no publish and no remote call. */
  lemma RejectCallsAreLocal(id: Id, p: PaymentEntity, f: SagaFaults)
    ensures Publishes(RejectCalls(id, p, f)) == 0
    ensures RemoteCalls(RejectCalls(id, p, f)) == []
  {
    var tail: seq<SagaCall> := if f.rejectedSave.Returns? then [AppendRejected(id)] else [];
    RemoteCallsAppend([SavePayment(WithStatus(p, Rejected))], tail);
  }

  /** The saga's first call is always the payer debit: nothing is published,
      saved or appended before it. */
  lemma DebitComesFirst(id: Id, p: PaymentEntity, f: SagaFaults)
    ensures |SagaCalls(id, p, f)| >= 2
    ensures SagaCalls(id, p, f)[0] == RemoteDebit(p.payerId, p.amount)
  {
  }

  /** Happy path: debit, then one "payment-completed" event keyed by the
      payment id, then the APPROVED row, then one PAYMENT_APPROVED append. */
  lemma HappyPath(id: Id, p: PaymentEntity, f: SagaFaults)
    requires StageOf(f) == Completed
    ensures SagaCalls(id, p, f) ==
      [RemoteDebit(p.payerId, p.amount), Publish(CompletedTopic, id, CompletedEvent(p)),
       SavePayment(WithStatus(p, Approved)), AppendApproved(id)]
    ensures SagaStored(p, f).status == Some(Approved)
    ensures SagaAppends(id, p, f) == [OutcomeEvent(id, p, true)]
  {
    assert ForwardCalls(id, p, f) + [] == ForwardCalls(id, p, f);
  }

  /** "payment-completed" is published at most once, and exactly when the
      debit succeeded. */
  lemma PublishedOnlyAfterDebit(id: Id, p: PaymentEntity, f: SagaFaults)
    ensures Publishes(SagaCalls(id, p, f)) <= 1
    ensures Publishes(SagaCalls(id, p, f)) == 1 <==> CallMerchantServiceDebit(f.debit)
  {
    var forward := ForwardCalls(id, p, f);
    RejectCallsAreLocal(id, p, f);
    match StageOf(f)
    case Completed =>
      PublishesAppend(forward, []);
    case DebitRefused =>
      PublishesAppend(forward, RejectCalls(id, p, f));
    case _ =>
      PublishesAppend([RemoteDebit(p.payeeId, p.amount)], RejectCalls(id, p, f));
      PublishesAppend(forward, [RemoteDebit(p.payeeId, p.amount)] + RejectCalls(id, p, f));
  }

  lemma {:induction false} NoRemoteCalls(calls: seq<SagaCall>)
    requires forall i :: 0 <= i < |calls| ==> !calls[i].RemoteDebit?
    ensures RemoteCalls(calls) == []
  {
    if calls != [] {
      NoRemoteCalls(calls[1..]);
    }
  }

  /** The `try` block makes one remote call, the payer debit, first. */
  lemma ForwardRemoteCalls(id: Id, p: PaymentEntity, f: SagaFaults)
    ensures RemoteCalls(ForwardCalls(id, p, f)) == [RemoteDebit(p.payerId, p.amount)]
  {
    var forward := ForwardCalls(id, p, f);
    var debit := RemoteDebit(p.payerId, p.amount);
    assert forward == [debit] + forward[1..];
    NoRemoteCalls(forward[1..]);
    RemoteCallsAppend([debit], forward[1..]);
  }

  /** The remote calls of a run: the payer debit, followed by exactly one
      payee debit (the compensation) when something failed after a
      successful debit, and by nothing otherwise. So at most two. */
  lemma RemoteCallsOfSaga(id: Id, p: PaymentEntity, f: SagaFaults)
    ensures RemoteCalls(SagaCalls(id, p, f)) ==
      if StageOf(f) in {PublishFailed, ApprovedSaveFailed, ApprovedAppendFailed}
      then [RemoteDebit(p.payerId, p.amount), RemoteDebit(p.payeeId, p.amount)]
      else [RemoteDebit(p.payerId, p.amount)]
    ensures |RemoteCalls(SagaCalls(id, p, f))| <= 2
  {
    var forward := ForwardCalls(id, p, f);
    ForwardRemoteCalls(id, p, f);
    RejectCallsAreLocal(id, p, f);
    match StageOf(f)
    case Completed =>
      RemoteCallsAppend(forward, []);
    case DebitRefused =>
      RemoteCallsAppend(forward, RejectCalls(id, p, f));
    case _ =>
      RemoteCallsAppend([RemoteDebit(p.payeeId, p.amount)], RejectCalls(id, p, f));
      RemoteCallsAppend(forward, [RemoteDebit(p.payeeId, p.amount)] + RejectCalls(id, p, f));
  }

  /** A refused debit leads straight to the reject path: no publish, no
      compensation, the REJECTED row when its save goes through, and at most
      one PAYMENT_REJECTED append. */
  lemma DebitRefusedRejects(id: Id, p: PaymentEntity, f: SagaFaults)
    requires !CallMerchantServiceDebit(f.debit)
    ensures SagaCalls(id, p, f) == [RemoteDebit(p.payerId, p.amount)] + RejectCalls(id, p, f)
    ensures f.rejectedSave.Returns? ==> SagaStored(p, f).status == Some(Rejected)
    ensures SagaAppends(id, p, f) == if f.rejectedSave.Returns? && f.rejectedAppend.Returns? then [OutcomeEvent(id, p, false)] else []
  {
  }

  /** The run changes the stored row's status only: APPROVED after a
      completed run, REJECTED after a failing run whose REJECTED save went
      through, still APPROVED when the PAYMENT_APPROVED append failed and the
      REJECTED save threw too, and untouched when no save went through. */
  lemma StoredOutcome(p: PaymentEntity, f: SagaFaults)
    ensures SagaStored(p, f) == p.(status := SagaStored(p, f).status)
    ensures StageOf(f) == Completed ==> SagaStored(p, f).status == Some(Approved)
    ensures StageOf(f) != Completed && f.rejectedSave.Returns? ==> SagaStored(p, f).status == Some(Rejected)
    ensures StageOf(f) == ApprovedAppendFailed && f.rejectedSave.Throws? ==> SagaStored(p, f).status == Some(Approved)
    ensures StageOf(f) in {DebitRefused, PublishFailed, ApprovedSaveFailed} && f.rejectedSave.Throws? ==>
      SagaStored(p, f) == p
  {
  }

  /** A run appends at most one ledger event, about this payment: PAYMENT_APPROVED
      exactly when it completed, PAYMENT_REJECTED exactly when a failing run
      saved its REJECTED row and the append went through. */
  lemma LedgerOfSaga(id: Id, p: PaymentEntity, f: SagaFaults)
    ensures |SagaAppends(id, p, f)| <= 1
    ensures forall ev :: ev in SagaAppends(id, p, f) ==> ev.paymentId == Some(id)
    ensures (exists ev :: ev in SagaAppends(id, p, f) && ev.eventType == PaymentApproved) <==> StageOf(f) == Completed
    ensures (exists ev :: ev in SagaAppends(id, p, f) && ev.eventType == PaymentRejected) <==>
      StageOf(f) != Completed && f.rejectedSave.Returns? && f.rejectedAppend.Returns?
  {
    if StageOf(f) == Completed {
      assert SagaAppends(id, p, f)[0].eventType == PaymentApproved;
    } else if f.rejectedSave.Returns? && f.rejectedAppend.Returns? {
      assert SagaAppends(id, p, f)[0].eventType == PaymentRejected;
    }
  }

  /** If the PAYMENT_APPROVED append fails, the APPROVED row already saved is
      overwritten by the REJECTED one, after the payee was debited. */
  lemma RejectOverwritesApproved(id: Id, p: PaymentEntity, f: SagaFaults)
    requires StageOf(f) == ApprovedAppendFailed && f.rejectedSave.Returns?
    ensures SagaCalls(id, p, f)[2] == SavePayment(WithStatus(p, Approved))
    ensures SagaCalls(id, p, f)[4] == RemoteDebit(p.payeeId, p.amount)
    ensures SagaCalls(id, p, f)[5] == SavePayment(WithStatus(p, Rejected))
    ensures SagaStored(p, f).status == Some(Rejected)
  {
  }

  /** There is no entry guard: whatever the stored status (already APPROVED
      or REJECTED included), a run debits the payer again and, when all goes
      well, leaves the row APPROVED. */
  lemma NoEntryGuard(id: Id, p: PaymentEntity, f: SagaFaults, s: PaymentStatus)
    requires StageOf(f) == Completed
    ensures SagaCalls(id, WithStatus(p, s), f)[0] == RemoteDebit(p.payerId, p.amount)
    ensures SagaStored(WithStatus(p, s), f).status == Some(Approved)
  {
  }

  /** The number of calls in a log equal to `c`. */
  function Occurrences(calls: seq<SagaCall>, c: SagaCall): (n: nat)
    ensures n <= |calls|
    ensures n > 0 <==> c in calls
  {
    if calls == [] then 0
    else (if calls[0] == c then 1 else 0) + Occurrences(calls[1..], c)
  }

  lemma {:induction false} OccurrencesAppend(a: seq<SagaCall>, b: seq<SagaCall>, c: SagaCall)
    ensures Occurrences(a + b, c) == Occurrences(a, c) + Occurrences(b, c)
  {
    if a == [] {
      assert a + b == b;
    } else {
      assert (a + b)[1..] == a[1..] + b;
      OccurrencesAppend(a[1..], b, c);
    }
  }

  /** A redelivered message runs the saga again on the row the first run
      left behind; the payer is then debited twice. */
  lemma RedeliveryDebitsTwice(id: Id, p: PaymentEntity, first: SagaFaults, second: SagaFaults)
    ensures Occurrences(SagaCalls(id, p, first) + SagaCalls(id, SagaStored(p, first), second),
                        RemoteDebit(p.payerId, p.amount)) >= 2
  {
    var debit := RemoteDebit(p.payerId, p.amount);
    var runs1 := SagaCalls(id, p, first);
    var q := SagaStored(p, first);
    StoredOutcome(p, first);
    var runs2 := SagaCalls(id, q, second);
    DebitComesFirst(id, p, first);
    DebitComesFirst(id, q, second);
    assert runs1 == [debit] + runs1[1..];
    assert runs2 == [debit] + runs2[1..];
    OccurrencesAppend(runs1, runs2, debit);
    OccurrencesAppend([debit], runs1[1..], debit);
    OccurrencesAppend([debit], runs2[1..], debit);
  }

  /** The saga service, over the payment rows and the payment ledger. */
  class PaymentSaga {
    const repository: PaymentRepository
    const eventStore: PaymentEventStore

    /** The ledger reads the same payment rows the saga writes. */
    ghost predicate Valid()
      reads repository
    {
      repository.Valid() && eventStore.repository == repository
    }

    constructor (repository: PaymentRepository, eventStore: PaymentEventStore)
      requires repository.Valid() && eventStore.repository == repository
      ensures this.repository == repository && this.eventStore == eventStore && Valid()
    {
      this.repository := repository;
      this.eventStore := eventStore;
    }

    /** `executePaymentSaga`: a `null` id or an unknown payment throws before
        any call; once the payment is loaded, the run never throws, issues
        `SagaCalls`, leaves `SagaStored` under the id and appends `SagaAppends`. */
    method ExecutePaymentSaga(paymentId: Option<Id>, f: SagaFaults) returns (r: Outcome<string>, calls: seq<SagaCall>)
      requires Valid()
      modifies repository, eventStore`events
      ensures Valid()
      ensures paymentId.None? ==> r == Fail(NullIdMessage)
      ensures paymentId.Some? && paymentId.value !in old(repository.rows) ==> r == Fail(NotFoundPrefix + paymentId.value)
      ensures r.Fail? ==> calls == [] && repository.rows == old(repository.rows) && eventStore.events == old(eventStore.events)
      ensures paymentId.Some? && paymentId.value in old(repository.rows) ==>
        var id := paymentId.value;
        var p := old(repository.rows)[id];
        && r == Pass
        && calls == SagaCalls(id, p, f)
        && repository.rows == old(repository.rows)[id := SagaStored(p, f)]
        && eventStore.events == old(eventStore.events) + SagaAppends(id, p, f)
    {
      if paymentId.None? {
        return Fail(NullIdMessage), [];
      }
      var id := paymentId.value;
      if id !in repository.rows {
        return Fail(NotFoundPrefix + id), [];
      }
      var payment := repository.rows[id];
      r := Pass;
      calls := [RemoteDebit(payment.payerId, payment.amount)];
      if !CallMerchantServiceDebit(f.debit) {
        var rejectCalls := FailSaga(id, payment, f);
        calls := calls + rejectCalls;
        return;
      }
      calls := calls + [Publish(CompletedTopic, id, CompletedEvent(payment))];
      var published := PublishOutcome(f.publish);
      if published.Pass? {
        var approved := WithStatus(payment, Approved);
        calls := calls + [SavePayment(approved)];
        var saved := repository.Save(approved, f.approvedSave);
        if saved.Pass? {
          calls := calls + [AppendApproved(id)];
          var appended := eventStore.SavePaymentApprovedEvent(Some(id), f.approvedAppend);
          if appended.Pass? {
            return;
          }
        }
      }
      // The `catch` block: one compensating payee debit, whose result is only logged.
      calls := calls + [RemoteDebit(payment.payeeId, payment.amount)];
      var rejectCalls := FailSaga(id, payment, f);
      calls := calls + rejectCalls;
    }

    /** `failSaga`: every exception of the reject path is caught. */
    method FailSaga(id: Id, payment: PaymentEntity, f: SagaFaults) returns (calls: seq<SagaCall>)
      requires Valid() && id in repository.rows && payment.id == Some(id)
      modifies repository, eventStore`events
      ensures Valid()
      ensures calls == RejectCalls(id, payment, f)
      ensures repository.rows == if f.rejectedSave.Returns? then old(repository.rows)[id := WithStatus(payment, Rejected)] else old(repository.rows)
      ensures eventStore.events == old(eventStore.events) +
        if f.rejectedSave.Returns? && f.rejectedAppend.Returns? then [OutcomeEvent(id, WithStatus(payment, Rejected), false)] else []
    {
      var rejected := WithStatus(payment, Rejected);
      calls := [SavePayment(rejected)];
      var saved := repository.Save(rejected, f.rejectedSave);
      if saved.Pass? {
        calls := calls + [AppendRejected(id)];
        var appended := eventStore.SavePaymentRejectedEvent(Some(id), f.rejectedAppend);
      }
    }
  }
}
