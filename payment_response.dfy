/**
 * The payment history row shown to a user (`PaymentResponse.ListDTO`), built from a payment
 * record and a nullable "refundable" flag. The timestamp formatter is a parameter.
 */
module PaymentResponse {
  import opened Common

  /** The gateway status that means the payment is captured. */
  const PaidStatus: string := "paid"
  const PaidLabel: string := "결제완료"
  const RefundedLabel: string := "환불완료"

  /** A `java.sql.Timestamp`, by its instant. */
  datatype Timestamp = Timestamp(epochMillis: int)

  /** The fields of the payment entity that the row reads (each a nullable Java reference). */
  datatype Payment = Payment(
    id: Option<int>,
    merchantUid: Option<string>,
    impUid: Option<string>,
    timestamp: Option<Timestamp>,
    amount: Option<int>,
    status: Option<string>)

  datatype ListDTO = ListDTO(
    id: Option<int>,
    merchantUid: Option<string>,
    impUid: Option<string>,
    timestamp: Option<string>,
    amount: Option<int>,
    status: Option<string>,
    statusDisplay: Option<string>,
    isRefundable: Option<bool>)

  /**
   * `new ListDTO(payment, isRefundable)`. `time` stands for `MyDateUtil.time`; every field the
   * constructor does not assign keeps Java's default, null.
   */
  function NewListDTO(payment: Payment, isRefundable: Option<bool>, time: Timestamp -> string): (d: ListDTO)
    ensures d.id == payment.id && d.merchantUid == payment.merchantUid
    ensures d.impUid == payment.impUid && d.amount == payment.amount
    ensures isRefundable.Some? ==> d.isRefundable == isRefundable
    ensures isRefundable.None? ==> d.isRefundable == Some(false)
    ensures payment.timestamp.None? ==> d.timestamp.None?
    ensures payment.timestamp.Some? ==> d.timestamp == Some(time(payment.timestamp.value))
    ensures d.status.None?
    ensures d.statusDisplay == Some(PaidLabel) <==> payment.status == Some(PaidStatus)
    ensures d.statusDisplay == Some(RefundedLabel) <==> payment.status != Some(PaidStatus)
  {
    ListDTO(
      id := payment.id,
      merchantUid := payment.merchantUid,
      impUid := payment.impUid,
      timestamp := if payment.timestamp.Some? then Some(time(payment.timestamp.value)) else None,
      amount := payment.amount,
      status := None,
      statusDisplay := if payment.status == Some(PaidStatus) then Some(PaidLabel) else Some(RefundedLabel),
      isRefundable := Some(isRefundable.GetOr(false)))
  }

  /** The refundable flag of a row is never null, whatever the caller passed. */
  lemma RefundableNeverNull(payment: Payment, isRefundable: Option<bool>, time: Timestamp -> string)
    ensures NewListDTO(payment, isRefundable, time).isRefundable.Some?
    ensures NewListDTO(payment, isRefundable, time).isRefundable.value <==> isRefundable == Some(true)
  {
  }

  /** Two payments with the same status get the same label, and only "paid" gets the paid label. */
  lemma StatusDisplayDependsOnStatusOnly(p: Payment, q: Payment, f: Option<bool>, g: Option<bool>, time: Timestamp -> string)
    ensures p.status == q.status ==> NewListDTO(p, f, time).statusDisplay == NewListDTO(q, g, time).statusDisplay
    ensures p.status != Some(PaidStatus) ==> NewListDTO(p, f, time).statusDisplay != Some(PaidLabel)
  {
  }
}
