# Banking payment saga — a verified Dafny model

This project models the core of an event-driven banking system built from three services:

- **payment service**: takes payment requests, runs the payment saga and keeps a payment ledger.
- **merchant service**: keeps merchant balances and credits payees.
- **notification service**: e-mails the payer when a payment has been processed.

The centre of the model is the payment saga. It loads a payment and debits the payer through a remote call. If the debit succeeds, it announces a "payment-completed" event, marks the payment APPROVED and records a PAYMENT_APPROVED ledger event. If anything fails after the debit, it makes one compensating remote call and runs a reject path that swallows its own errors.

How the system's pieces become Dafny:

- **Domain objects become classes.** `Payment` and `Merchant` are classes whose methods assign fields; their frames (`modifies this\`status`, `modifies this\`balance`) state which fields a method may change.
- **Persisted rows and events become datatypes.** The repositories are classes holding a `map` from id to row. The two ledgers are classes holding a `seq` of events that only ever grows.
- **Collaborators become parameters.** Kafka, the merchant service's REST endpoint, the e-mail notifier and the repositories' failure modes are inputs to each method:
  - an `Answer` means the call returns or throws with a message;
  - a `Reply` means the REST call replies with a status code or throws.
- **Calls become logs.** The saga (`ExecutePaymentSaga`, `FailSaga`), `CreatePayment`, the two event handlers and `NotifyPaymentProcessed` return the ordered log of the calls they issued (sends, remote debits, saves, appends), including the call that threw. The other service methods (`ApprovedPayment`, `RegisterMerchant`, `ProcessReceivedPayment`) state their effects through the new repository and ledger state instead. Order and multiplicity can therefore be stated as contracts.
- **Values.** Ids are the UUID's text. Amounts are exact rationals (`real`), because `BigDecimal` amounts are only compared, added and subtracted. A Java `null` is `None`.
- **Exceptions** are `Outcome`/`Result` values carrying the exception's message.

Each method of the saga and of the services is proved against specification functions of the inputs and the old state. Examples are `SagaCalls`, `SagaStored` and `SagaAppends` for the saga, `ApprovalOutcome` for the approval step, and `ReceiveOutcome` for crediting a merchant. Lemmas about those functions state the branch outcomes, the ordering, and the at-most-once and exactly-once guarantees.

## Model

| member | source | states |
|---|---|---|
| PaymentModel.Trim | payment-service/src/main/java/com/banking/payment/model/Payment.java:28 | `trim()` leaves nothing exactly when every character is a blank (code point up to U+0020) |
| PaymentModel.TrimStart | payment-service/src/main/java/com/banking/payment/model/Payment.java:28 | stripping leading blanks leaves nothing exactly when all characters are blanks, and otherwise stops at a non-blank |
| PaymentModel.TrimEnd | payment-service/src/main/java/com/banking/payment/model/Payment.java:28 | stripping trailing blanks leaves nothing exactly when all characters are blanks |
| PaymentModel.Validate | payment-service/src/main/java/com/banking/payment/model/Payment.java:23-39 | passes exactly for a positive amount, a non-blank currency and both party ids present. Otherwise the first failing check, in the order amount, currency, payer, payee, decides the message |
| PaymentModel.OnlyPendingMoves | payment-service/src/main/java/com/banking/payment/model/Payment.java:46-59 | a transition succeeds exactly from PENDING and yields the requested status |
| PaymentModel.TerminalStatesAbsorb | payment-service/src/main/java/com/banking/payment/model/Payment.java:46-59 | after a successful approve or reject, neither approve nor reject succeeds again |
| PaymentModel.Payment.Initialize | payment-service/src/main/java/com/banking/payment/model/Payment.java:41-44 | the outcome is validation's; the status becomes PENDING exactly when validation passes and is otherwise unchanged; only `status` may change |
| PaymentModel.Payment.Approve | payment-service/src/main/java/com/banking/payment/model/Payment.java:46-52 | succeeds exactly from PENDING and then sets APPROVED; otherwise it throws the guard message and leaves the status; only `status` may change |
| PaymentModel.Payment.Reject | payment-service/src/main/java/com/banking/payment/model/Payment.java:54-59 | succeeds exactly from PENDING and then sets REJECTED; otherwise it throws the guard message and leaves the status; only `status` may change |
| PaymentModel.SelfPaymentAccepted | payment-service/src/main/java/com/banking/payment/model/Payment.java:23-39 | a payment from an account to itself passes validation (the code has no self-payment check) |
| PaymentModel.ThreeDecimalAmountAccepted | payment-service/src/main/java/com/banking/payment/model/Payment.java:24-26 | 100.559 passes validation (the code has no scale check) |
| PaymentModel.BlankCurrencyRejected | payment-service/src/main/java/com/banking/payment/model/Payment.java:28-30 | a currency of blanks only is rejected with the currency message |
| PaymentData.WithStatus | payment-service/src/main/java/com/banking/payment/service/PaymentSaga.java:68 | `setStatus` changes the status and keeps the other six fields |
| PaymentData.PaymentRepository.Save | payment-service/src/main/java/com/banking/payment/service/PaymentSaga.java:69 | saving succeeds exactly for a row with an id when the store returns; it then inserts or overwrites that id's row, and otherwise nothing changes; rows stay under their own ids |
| PaymentMapping.ToEntity | payment-service/src/main/java/com/banking/payment/mapper/PaymentMapper.java:7-16 | the row never carries a payer e-mail |
| PaymentMapping.ToEntityInjective | payment-service/src/main/java/com/banking/payment/mapper/PaymentMapper.java:7-16 | two payments map to the same row exactly when they agree on id, payer, payee, amount, currency and status |
| PaymentMapping.ToDomain | payment-service/src/main/java/com/banking/payment/mapper/PaymentMapper.java:18-29 | `null` maps to `null`; otherwise a new payment without an e-mail whose row is the input row minus its e-mail (so `toDomain(toEntity(p))` agrees with `p` on the six fields) |
| PaymentLedger.OutcomeEvent | payment-service/src/main/java/com/banking/payment/service/PaymentEventStore.java:56-66 | the approved or rejected event copies payer, payee, amount and currency from the stored row, with the matching status and event type |
| PaymentLedger.Select | payment-service/src/main/java/com/banking/payment/service/PaymentEventStore.java:93-103 | a history query returns exactly the logged events matching its column, and no more events than the log holds; the model returns them in log order (see "## Left out") |
| PaymentLedger.SelectAppend | payment-service/src/main/java/com/banking/payment/service/PaymentEventStore.java:21-104 | querying an extended log gives the old answer followed by the new matching events, so earlier history is never rewritten (the order is the model's log order; see "## Left out") |
| PaymentLedger.SelectIdempotent | payment-service/src/main/java/com/banking/payment/service/PaymentEventStore.java:93-103 | filtering a query's answer again by the same key changes nothing |
| PaymentLedger.PaymentEventStore.SavePaymentCreatedEvent | payment-service/src/main/java/com/banking/payment/service/PaymentEventStore.java:26-49 | appends exactly one PAYMENT_CREATED event with the given fields when the store returns, else nothing |
| PaymentLedger.PaymentEventStore.SavePaymentApprovedEvent | payment-service/src/main/java/com/banking/payment/service/PaymentEventStore.java:51-70 | a `null` or unknown id throws and appends nothing. Otherwise it appends one PAYMENT_APPROVED event built from the stored row, whatever that row's status; only the log may change |
| PaymentLedger.PaymentEventStore.SavePaymentRejectedEvent | payment-service/src/main/java/com/banking/payment/service/PaymentEventStore.java:72-91 | the same for PAYMENT_REJECTED |
| PaymentLedger.PaymentEventStore.GetPaymentHistory | payment-service/src/main/java/com/banking/payment/service/PaymentEventStore.java:93-95 | exactly the logged events of that payment id |
| PaymentLedger.PaymentEventStore.GetPayerPaymentHistory | payment-service/src/main/java/com/banking/payment/service/PaymentEventStore.java:97-99 | exactly the logged events of that payer |
| PaymentLedger.PaymentEventStore.GetPayeePaymentHistory | payment-service/src/main/java/com/banking/payment/service/PaymentEventStore.java:101-103 | exactly the logged events of that payee |
| PaymentSagas.CallMerchantServiceDebit | payment-service/src/main/java/com/banking/payment/service/PaymentSaga.java:89-130 | the debit counts as done exactly for a 2xx reply; a thrown exception counts as not done, so the call never throws |
| PaymentSagas.CompletedEvent | payment-service/src/main/java/com/banking/payment/service/PaymentSaga.java:134-144 | the completed event carries the row's id, payer, payee, amount and currency, an empty e-mail and APPROVED |
| PaymentSagas.PublishOutcome | payment-service/src/main/java/com/banking/payment/service/PaymentSaga.java:145-153 | publishing fails exactly when the send throws, and then with "Kafka publish failed" |
| PaymentSagas.Publishes | payment-service/src/main/java/com/banking/payment/service/PaymentSaga.java:65 | counts the publishes of a call log; zero exactly when no call is a publish |
| PaymentSagas.RemoteCalls | payment-service/src/main/java/com/banking/payment/service/PaymentSaga.java:51-54 | the remote debit calls of a log, in order, and nothing else |
| PaymentSagas.PublishesAppend | payment-service/src/main/java/com/banking/payment/service/PaymentSaga.java:65 | publish counts add up over concatenated logs |
| PaymentSagas.RemoteCallsAppend | payment-service/src/main/java/com/banking/payment/service/PaymentSaga.java:79 | remote calls of concatenated logs are concatenated |
| PaymentSagas.NoRemoteCalls | payment-service/src/main/java/com/banking/payment/service/PaymentSaga.java:156-165 | a log with no remote debit yields no remote calls |
| PaymentSagas.RejectCallsAreLocal | payment-service/src/main/java/com/banking/payment/service/PaymentSaga.java:156-165 | the reject path publishes nothing and makes no remote call |
| PaymentSagas.ForwardRemoteCalls | payment-service/src/main/java/com/banking/payment/service/PaymentSaga.java:49-70 | the `try` block's only remote call is the payer debit |
| PaymentSagas.DebitComesFirst | payment-service/src/main/java/com/banking/payment/service/PaymentSaga.java:51-54 | the first call of every run is the payer debit |
| PaymentSagas.HappyPath | payment-service/src/main/java/com/banking/payment/service/PaymentSaga.java:51-70 | a fully successful run issues, in this order: the debit, one "payment-completed" event keyed by the payment id, the APPROVED save and one PAYMENT_APPROVED append. It leaves the payment APPROVED |
| PaymentSagas.PublishedOnlyAfterDebit | payment-service/src/main/java/com/banking/payment/service/PaymentSaga.java:51-65 | at most one publish per run, and one exactly when the debit succeeded |
| PaymentSagas.RemoteCallsOfSaga | payment-service/src/main/java/com/banking/payment/service/PaymentSaga.java:51-85 | the remote calls are the payer debit, plus exactly one payee debit when something failed after a successful debit; at most two in all |
| PaymentSagas.DebitRefusedRejects | payment-service/src/main/java/com/banking/payment/service/PaymentSaga.java:56-60 | a refused debit goes straight to the reject path: no publish, no compensation, REJECTED if its save goes through, at most one PAYMENT_REJECTED |
| PaymentSagas.StoredOutcome | payment-service/src/main/java/com/banking/payment/service/PaymentSaga.java:68-85 | only the status changes. It is APPROVED after success, REJECTED after a failure whose reject save went through, and still APPROVED when the approved append and the reject save both failed. Nothing changes when no save went through |
| PaymentSagas.LedgerOfSaga | payment-service/src/main/java/com/banking/payment/service/PaymentSaga.java:68-85 | at most one ledger append per run, about this payment. It is PAYMENT_APPROVED exactly on success, and PAYMENT_REJECTED exactly when a failing run's reject save and append both went through |
| PaymentSagas.RejectOverwritesApproved | payment-service/src/main/java/com/banking/payment/service/PaymentSaga.java:68-85 | when the approved append fails, the APPROVED row already saved is overwritten by REJECTED after the payee debit |
| PaymentSagas.NoEntryGuard | payment-service/src/main/java/com/banking/payment/service/PaymentSaga.java:41-51 | whatever the stored status, a run debits the payer again and can approve the payment again |
| PaymentSagas.Occurrences | payment-service/src/main/java/com/banking/payment/service/PaymentSaga.java:51-54 | counts a call in a log; positive exactly when it occurs |
| PaymentSagas.OccurrencesAppend | payment-service/src/main/java/com/banking/payment/service/PaymentSaga.java:51-54 | counts add up over concatenated logs |
| PaymentSagas.RedeliveryDebitsTwice | payment-service/src/main/java/com/banking/payment/service/PaymentSaga.java:36-54 | running the saga a second time on what the first run stored debits the payer a second time |
| PaymentSagas.PaymentSaga.ExecutePaymentSaga | payment-service/src/main/java/com/banking/payment/service/PaymentSaga.java:35-87 | a `null` id or an unknown payment throws before any call and changes nothing. Otherwise the run returns normally, issues exactly `SagaCalls`, stores `SagaStored` under the id and appends `SagaAppends` |
| PaymentSagas.PaymentSaga.FailSaga | payment-service/src/main/java/com/banking/payment/service/PaymentSaga.java:156-165 | saves the REJECTED row, and appends PAYMENT_REJECTED only if that save returned; never throws |
| PaymentIntake.PendingRow | payment-service/src/main/java/com/banking/payment/service/PaymentService.java:28-41 | the saved row has the new id, PENDING, no e-mail, and the request's payer, payee, amount and currency |
| PaymentIntake.CreatedEvent | payment-service/src/main/java/com/banking/payment/service/PaymentService.java:44-53 | the created event carries the saved row's id, payer, payee, amount, currency and status |
| PaymentIntake.PaymentService.CreatePayment | payment-service/src/main/java/com/banking/payment/service/PaymentService.java:26-57 | an invalid request fails with validation's message and makes no call. Otherwise exactly one PENDING row is saved under the new id, and only after that save returns is exactly one created event sent on "payment-events", keyed by that id. A failing send propagates after the save |
| PaymentIntake.ApprovalOutcome | payment-service/src/test/java/com/banking/payment/PaymentServiceTest.java:162-200 | approval succeeds exactly for a known PENDING payment whose save and append return. Otherwise it fails with the lookup's, the guard's or the store's message |
| PaymentIntake.ApprovalStored | payment-service/src/test/java/com/banking/payment/PaymentServiceTest.java:162-175 | only the approved payment's row changes, and only from PENDING to APPROVED once its save returned |
| PaymentIntake.SettledPaymentsStay | payment-service/src/test/java/com/banking/payment/PaymentServiceTest.java:188-200 | approving an APPROVED or REJECTED payment fails with the guard message and changes nothing |
| PaymentIntake.ApproveTwiceFails | payment-service/src/test/java/com/banking/payment/PaymentServiceTest.java:188-200 | a second approval after a successful one fails and leaves the rows as the first left them |
| PaymentIntake.PaymentService.ApprovedPayment | payment-service/src/test/java/com/banking/payment/PaymentServiceTest.java:162-200 | outcome, rows and ledger are `ApprovalOutcome`, `ApprovalStored` and one PAYMENT_APPROVED append on success |
| SagaOrchestration.Announcement | payment-service/src/main/java/com/banking/payment/payment/PaymentSagaOrchestrator.java:31-42 | the processed event copies payment id, payer, payee, amount, currency and e-mail from the incoming event |
| SagaOrchestration.Rejection | payment-service/src/main/java/com/banking/payment/payment/PaymentSagaOrchestrator.java:47-63 | the error path sends one REJECTED event with "Erro ao processar: " and the message; with a `null` id it throws instead and sends nothing |
| SagaOrchestration.ReactionAnnounces | payment-service/src/main/java/com/banking/payment/payment/PaymentSagaOrchestrator.java:28-63 | one or two events, all on "payment-processed" keyed by the payment id. The last is APPROVED exactly when the approval and its send both went through, and the handler throws only when the REJECTED send throws |
| SagaOrchestration.FailedApprovalAnnounced | payment-service/src/main/java/com/banking/payment/payment/PaymentSagaOrchestrator.java:47-63 | a failed approval is answered by exactly one REJECTED event carrying its message |
| SagaOrchestration.ApprovedThenRejected | payment-service/src/main/java/com/banking/payment/payment/PaymentSagaOrchestrator.java:28-63 | if the APPROVED send throws, a REJECTED event follows, while the payment stays APPROVED |
| SagaOrchestration.PaymentSagaOrchestrator.HandlePaymentCreated | payment-service/src/main/java/com/banking/payment/payment/PaymentSagaOrchestrator.java:24-65 | the sends and the outcome are `React` of the approval's outcome. The rows and the ledger are exactly those the approval left: one PAYMENT_APPROVED event built from the approved row when it passed, none otherwise (no reject, no compensation) |
| MerchantModel.Credit | merchant-service/src/main/java/com/banking/merchantservice/model/Merchant.java:20-25 | succeeds exactly for a positive amount and then raises the balance by it; otherwise "Amount must be greater than zero" |
| MerchantModel.Debit | merchant-service/src/main/java/com/banking/merchantservice/model/Merchant.java:27-35 | succeeds exactly for 0 < amount <= balance, and then lowers the balance by it, never below zero. The amount check comes before "Insufficient balance" |
| MerchantModel.DebitKeepsNonNegative | merchant-service/src/main/java/com/banking/merchantservice/model/Merchant.java:31-34 | a non-negative balance stays non-negative, and debiting exactly the whole balance is allowed |
| MerchantModel.CreditThenDebitRestores | merchant-service/src/main/java/com/banking/merchantservice/model/Merchant.java:20-35 | receiving then debiting the same amount restores the balance |
| MerchantModel.NegativeBalanceAccepted | merchant-service/src/main/java/com/banking/merchantservice/model/Merchant.java:37-40 | a negative initial balance can be credited but never debited |
| MerchantModel.Merchant.ReceivePayment | merchant-service/src/main/java/com/banking/merchantservice/model/Merchant.java:20-25 | the new balance is `Credit`'s, or the balance stays and the amount message is thrown; only `balance` may change |
| MerchantModel.Merchant.DebitPayment | merchant-service/src/main/java/com/banking/merchantservice/model/Merchant.java:27-35 | the new balance is `Debit`'s, or the balance stays and `Debit`'s message is thrown; only `balance` may change |
| MerchantModel.Merchant.Initialize | merchant-service/src/main/java/com/banking/merchantservice/model/Merchant.java:37-40 | a new id and the given balance, with no sign check |
| MerchantData.MerchantRepository.Save | merchant-service/src/main/java/com/banking/merchantservice/service/MerchantService.java:43 | a row with an id is inserted or overwritten when the database returns; a missing id or a throwing database fails with its message and stores nothing; rows stay under their own ids |
| MerchantData.MerchantRepository.WithEmail | merchant-service/src/main/java/com/banking/merchantservice/service/MerchantService.java:58 | exactly the ids of rows with that e-mail |
| MerchantData.MerchantRepository.WithPhone | merchant-service/src/main/java/com/banking/merchantservice/service/MerchantService.java:65 | exactly the ids of rows with that phone |
| MerchantMapping.ToEntityInjective | merchant-service/src/main/java/com/banking/merchantservice/mapper/MerchantMapper.java:8-17 | two merchants map to the same row exactly when they agree on all six fields |
| MerchantMapping.ToDomain | merchant-service/src/main/java/com/banking/merchantservice/mapper/MerchantMapper.java:19-30 | `null` maps to `null`; otherwise a new merchant that maps back to the same row (both round trips, with `ToEntityInjective`) |
| MerchantServices.RegisteredRow | merchant-service/src/main/java/com/banking/merchantservice/service/MerchantService.java:28-41 | the persisted row keeps a supplied id or takes a new one, and carries the request's fields with balance = initial balance |
| MerchantServices.ReceiveOutcome | merchant-service/src/main/java/com/banking/merchantservice/service/MerchantService.java:70-81 | a `null` or unknown payee, or a non-positive amount, fails with its message. Otherwise only the payee's balance rises, by the amount; every other row is unchanged |
| MerchantServices.ReceiveNeverLowers | merchant-service/src/main/java/com/banking/merchantservice/service/MerchantService.java:76-79 | a credit lowers no balance |
| MerchantServices.MerchantService.RegisterMerchant | merchant-service/src/main/java/com/banking/merchantservice/service/MerchantService.java:24-47 | persists `RegisteredRow` and returns a new merchant equal field by field to it; a `persist` that throws propagates and stores nothing |
| MerchantServices.MerchantService.GetMerchant | merchant-service/src/main/java/com/banking/merchantservice/service/MerchantService.java:49-54 | the stored merchant, or "Merchant not found with id: " for an unknown id (and the null-id message) |
| MerchantServices.MerchantService.GetMerchantByEmail | merchant-service/src/main/java/com/banking/merchantservice/service/MerchantService.java:56-61 | succeeds exactly when one row has the e-mail and returns it; none is "not found", several make the query throw |
| MerchantServices.MerchantService.GetMerchantByPhone | merchant-service/src/main/java/com/banking/merchantservice/service/MerchantService.java:63-68 | the same on the phone number |
| MerchantServices.MerchantService.ProcessReceivedPayment | merchant-service/src/main/java/com/banking/merchantservice/service/MerchantService.java:70-81 | a lookup or guard failure is `ReceiveOutcome`'s; otherwise the outcome is the save's. The rows become `ReceiveOutcome`'s exactly when the whole call passes, and are unchanged on any exception |
| MerchantLedger.ForMerchant | merchant-service/src/main/java/com/banking/merchantservice/service/MerchantEventStore.java:62-64 | exactly the logged events of that merchant, in log order (an order the query itself does not fix; see "## Left out") |
| MerchantLedger.ForMerchantAppend | merchant-service/src/main/java/com/banking/merchantservice/service/MerchantEventStore.java:18-65 | appending extends each merchant's history by its new events and rewrites nothing (in the model's log order; see "## Left out") |
| MerchantLedger.OtherMerchantUnaffected | merchant-service/src/main/java/com/banking/merchantservice/service/MerchantEventStore.java:62-64 | another merchant's event leaves a history unchanged |
| MerchantLedger.MerchantEventStore.SaveMerchantRegisteredEvent | merchant-service/src/main/java/com/banking/merchantservice/service/MerchantEventStore.java:22-39 | appends one MERCHANT_REGISTERED event with change = new balance = initial balance when the store returns |
| MerchantLedger.MerchantEventStore.SavePaymentReceivedEvent | merchant-service/src/main/java/com/banking/merchantservice/service/MerchantEventStore.java:41-60 | appends one PAYMENT_RECEIVED event copying amount and new balance verbatim, unchecked against each other |
| MerchantLedger.MerchantEventStore.GetMerchantHistory | merchant-service/src/main/java/com/banking/merchantservice/service/MerchantEventStore.java:62-64 | exactly the logged events of that merchant |
| MerchantListener.ApprovedResponse | merchant-service/src/main/java/com/banking/merchantservice/listener/PaymentEventListener.java:40-48 | the APPROVED answer carries payment and payer ids, an empty e-mail and the success description |
| MerchantListener.RejectedResponse | merchant-service/src/main/java/com/banking/merchantservice/listener/PaymentEventListener.java:56-63 | the REJECTED answer carries payment and payer ids and "Falha no processamento: " with the message |
| MerchantListener.CreditOutcome | merchant-service/src/main/java/com/banking/merchantservice/listener/PaymentEventListener.java:37-38 | lookup, credit and save fail together: with the message of crediting the payee, or with the store's message when the save throws |
| MerchantListener.AnswerAnnounces | merchant-service/src/main/java/com/banking/merchantservice/listener/PaymentEventListener.java:37-65 | one or two answers on "payment-events" keyed by the payment id. The last is APPROVED exactly when the credit and its send went through; every REJECTED answer starts "Falha no processamento: " |
| MerchantListener.CreditedThenRejected | merchant-service/src/main/java/com/banking/merchantservice/listener/PaymentEventListener.java:50-65 | if the APPROVED send throws, a REJECTED answer follows although the payee was credited |
| MerchantListener.SaveFailureRejected | merchant-service/src/main/java/com/banking/merchantservice/listener/PaymentEventListener.java:53-65 | a save of the credited row that throws is caught: the only answer is REJECTED with "Falha no processamento: " and the store's message |
| MerchantListener.PaymentEventListener.HandlePaymentCreatedEvent | merchant-service/src/main/java/com/banking/merchantservice/listener/PaymentEventListener.java:28-67 | a non-PENDING event is ignored: no change, no answer. Otherwise the payee's balance changes exactly as `ReceiveOutcome` says when lookup, credit and save all pass, and nothing changes otherwise; the payer is never touched, and the answers are `Respond`'s |
| Notifications.Recipient | notification-service/src/main/java/com/banking/notificationservice/service/NotificationService.java:23-26 | the payer's e-mail whenever it is not `null` (an empty one included), else "admin@banking.com" |
| Notifications.Subject | notification-service/src/main/java/com/banking/notificationservice/service/NotificationService.java:28 | "Payment update: " followed by the status |
| Notifications.BodyMentions | notification-service/src/main/java/com/banking/notificationservice/service/NotificationService.java:29-35 | the body contains the payment id, the status and the description |
| Notifications.Record | notification-service/src/main/java/com/banking/notificationservice/service/NotificationService.java:39-45 | the saved record has the event's payment id and the recipient, subject and body that were sent |
| Notifications.NotifyPaymentProcessed | notification-service/src/main/java/com/banking/notificationservice/service/NotificationService.java:21-49 | a `null` event throws before any call. The e-mail is sent first, exactly once; the record is saved once, right after, only if the send returned. A failing save propagates after the e-mail went out |

## Code and tests disagree

Where the repository's tests expect something the code does not do, the model follows the code. The one place it follows the evidently intended branch instead is registering a merchant without an id (last item):

- **Topic of the created event.** `createPayment` publishes on "payment-events" (`PaymentService.java:55`); the test expects "payment-created" (`PaymentServiceTest.java:75`). `CreatePayment` uses "payment-events".
- **Return value and ledger append.** `createPayment` returns nothing and never appends PAYMENT_CREATED (`PaymentService.java:27`); the test expects an id and the append (`PaymentServiceTest.java:56-73`).
- **Missing checks in `validate`.** `validate` has no self-payment check and no two-decimal check. `SelfPaymentAccepted` and `ThreeDecimalAmountAccepted` show inputs the tests expect to be rejected (`PaymentServiceTest.java:239-249`, `268-276`).
- **Compensation target.** The compensation debits the payee (`PaymentSaga.java:79`); the test expects a credit to the payer (`PaymentSagaTest.java:166-178`). `RemoteCallsOfSaga` states the payee debit.
- **`approvedPayment`.** The orchestrator calls `approvedPayment`, which `PaymentService` does not define. Its behaviour is taken from `PaymentServiceTest.java:162-200`:
  - look the row up; an absent row throws "No value present";
  - apply `approve`'s guard;
  - save the APPROVED row;
  - append PAYMENT_APPROVED.
- **Constructors that do not fit.** `new Payment(...)` is called with six arguments while `Payment` has seven fields (`PaymentService.java:28-35`, `PaymentMapper.java:21-28`). The model reads them as leaving `payerEmail` absent.
- **Missing event fields.** `PaymentCreatedEvent` has no `payerEmail`, yet the orchestrator reads it. `PaymentProcessedEvent` lacks the builder and most of the fields its producers set. The model's events carry every field their users read or write; `PaymentCreatedEvent.payerEmail` is never filled by the intake.
- **Registering without an id.** `Merchant.id` is `@NonNull` too (`Merchant.java:13`), so `new Merchant(request.merchantId(), ...)` at `MerchantService.java:28-35` throws a `NullPointerException` for an absent id before the `initialize` branch at `MerchantService.java:37-39` can run. The model follows that intended branch: `RegisteredRow` and `RegisterMerchant` give an id-less request the new id `freshId`.

## Left out

- HTTP transport inside `callMerchantServiceDebit` (URL, headers, body, logging): the call is the `Reply` oracle.
- Logging everywhere, including the failure reasons `failSaga` only logs.
- Event ids and timestamps (`UUID.randomUUID()`, `LocalDateTime.now()`): new payment and merchant ids are parameters (`freshId`), and events carry neither.
- Order of the history queries: `findByPaymentId`, `findByPayerId`, `findByPayeeId` (`PaymentEventRepository.java:12-14`) and `findByMerchantId` (`MerchantEventRepository.java:12`) are derived queries with no `OrderBy`, and event rows have random ids, so the database may return a history in any order. `Select` and `ForMerchant` fix log (append) order, as the design intends. `SelectAppend` and `ForMerchantAppend` state their prefix claim in that order; only their membership content holds for the code whatever the order.
- Kafka listener wiring and delivery semantics (consumer groups, redelivery, ordering across services): each handler is one sequential call. A redelivered message is a second call (`RedeliveryDebitsTwice`).
- Transaction rollback (`@Transactional`): a method that throws leaves the saves it already made. A ledger append that throws inside the saga's transaction is treated as caught, without the rollback-only marking Spring would add.
- Database constraints: `nullable = false` columns, unique merchant names and e-mails, and a duplicate id on `persist` (which the model treats like `save`) are not checked.
- Null merchant fields other than the id (for the id, see "Registering without an id" above): Lombok's `@NonNull` rejects them; the request's name, e-mail, phone, initial balance and currency are plain values.
- `ToEntity` (merchant mapper): a plain field copy with no contract of its own; its meaning is stated by `ToEntityInjective` and `ToDomain`.
- Controllers, controller advices, the e-mail notifier implementations, the frontend and the architecture tests: request plumbing, delivery and UI.
- `getPaymentById`, `getAllPayments`, `getPaymentsByPayer` and `rejectPayment`, which appear only in the tests: they are not part of the saga core.
