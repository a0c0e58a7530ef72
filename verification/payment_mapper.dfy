/** `PaymentMapper`: field copies between the domain object and the row. */
module PaymentMapping {
  import opened Common
  import opened PaymentModel
  import opened PaymentData

  /** `toEntity`: copies id, payer, payee, amount, currency and status; the
      builder is never given `payerEmail`, so the row has none. */
  function ToEntity(p: Payment): (e: PaymentEntity)
    reads p
    ensures e.payerEmail == None
  {
    PaymentEntity(p.id, p.payerId, None, p.payeeId, p.amount, p.currency, p.status)
  }

  /** Two payments map to the same row exactly when they agree on the six
      copied fields; `payerEmail` plays no part. */
  lemma ToEntityInjective(p: Payment, q: Payment)
    ensures ToEntity(p) == ToEntity(q) <==>
      && p.id == q.id && p.payerId == q.payerId && p.payeeId == q.payeeId
      && p.amount == q.amount && p.currency == q.currency && p.status == q.status
  {
  }

  /** `toDomain`: `null` for `null`; otherwise a new payment with the row's six
      fields and no `payerEmail`. Mapping it back gives the row without its
      `payerEmail`, and for any payment `q`, `toDomain(toEntity(q))` agrees
      with `q` on the six fields. */
  method ToDomain(e: Option<PaymentEntity>) returns (p: Payment?)
    ensures e.None? <==> p == null
    ensures p != null ==> fresh(p) && p.payerEmail == None
    ensures p != null ==> ToEntity(p) == e.value.(payerEmail := None)
  {
    if e.None? {
      return null;
    }
    var row := e.value;
    p := new Payment(row.id, row.payerId, None, row.payeeId, row.amount, row.currency, row.status);
  }
}
