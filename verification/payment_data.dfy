/** The persisted payment row (`PaymentEntity`) and the payment repository,
    modelled as a map from id to row. */
module PaymentData {
  import opened Common
  import opened CoreEvents

  /** `PaymentEntity`: the stored current state of one payment. */
  datatype PaymentEntity = PaymentEntity(
    id: Option<Id>,
    payerId: Option<Id>,
    payerEmail: Option<string>,
    payeeId: Option<Id>,
    amount: Option<Money>,
    currency: Option<string>,
    status: Option<PaymentStatus>)

  /** The row with its status set to `s`, the way `setStatus` changes it. */
  function WithStatus(p: PaymentEntity, s: PaymentStatus): (q: PaymentEntity)
    ensures q.status == Some(s)
    ensures q.id == p.id && q.payerId == p.payerId && q.payerEmail == p.payerEmail
    ensures q.payeeId == p.payeeId && q.amount == p.amount && q.currency == p.currency
  {
    p.(status := Some(s))
  }

  /** Message of the exception the persistence layer raises for a row without an id. */
  const MissingIdMessage := "ids for this class must be manually assigned before calling save()"

  /** `PaymentRepository`: one row per payment id. */
  class PaymentRepository {
    var rows: map<Id, PaymentEntity>

    /** Every row is stored under its own id. */
    ghost predicate Valid()
      reads this
    {
      forall k :: k in rows ==> rows[k].id == Some(k)
    }

    constructor ()
      ensures Valid() && rows == map[]
    {
      rows := map[];
    }

    /** `save(entity)`: insert or overwrite the row under the entity's id;
        the store's answer decides whether it throws. */
    method Save(e: PaymentEntity, answer: Answer) returns (r: Outcome<string>)
      requires Valid()
      modifies this
      ensures Valid()
      ensures r.Pass? <==> e.id.Some? && answer.Returns?
      ensures e.id.None? ==> r == Fail(MissingIdMessage)
      ensures e.id.Some? && answer.Throws? ==> r == Fail(answer.message)
      ensures rows == if r.Pass? then old(rows)[e.id.value := e] else old(rows)
    {
      if e.id.None? {
        return Fail(MissingIdMessage);
      }
      r := AsOutcome(answer);
      if r.Pass? {
        rows := rows[e.id.value := e];
      }
    }
  }
}
