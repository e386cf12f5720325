/**
 * The refund request entity: built PENDING by the requesting user, then set APPROVED or
 * REJECTED. The entity's own methods do not check the current status; a terminal-state guard,
 * if any, belongs to the caller.
 */
module Refunds {
  import opened Common

  /** The length of the `reason` and `rejectReason` columns. */
  const ReasonColumnLength: int := 500

  datatype RefundStatus = PENDING | APPROVED | REJECTED

  /** A referenced entity (the requesting user, the payment), by identity. */
  datatype EntityRef = EntityRef(id: int)

  /** A nullable reason fits its column when it is null or at most 500 characters long. */
  predicate FitsColumn(s: Option<string>) {
    s.None? || |s.value| <= ReasonColumnLength
  }

  class RefundRequest {
    var id: Option<int>
    var user: Option<EntityRef>
    var payment: Option<EntityRef>
    var reason: Option<string>
    var rejectReason: Option<string>
    var status: RefundStatus
    var createdAt: Option<int>
    var updatedAt: Option<int>

    /** Both reasons fit their columns, so the row can be stored. */
    predicate Storable()
      reads this
    {
      FitsColumn(reason) && FitsColumn(rejectReason)
    }

    /** The builder constructor: the given user, payment and reason, status PENDING, nothing else set. */
    constructor (user: Option<EntityRef>, payment: Option<EntityRef>, reason: Option<string>)
      ensures this.user == user && this.payment == payment && this.reason == reason
      ensures status == PENDING && rejectReason.None?
      ensures id.None? && createdAt.None? && updatedAt.None?
      ensures IsPending() && !IsApproved() && !IsRejected()
      ensures Storable() <==> FitsColumn(reason)
    {
      this.id := None;
      this.user := user;
      this.payment := payment;
      this.reason := reason;
      this.rejectReason := None;
      this.status := PENDING;
      this.createdAt := None;
      this.updatedAt := None;
    }

    /** `approve()`: whatever the current status, it becomes APPROVED; no other field changes. */
    method Approve()
      modifies this`status
      ensures status == APPROVED
      ensures IsApproved() && !IsPending() && !IsRejected()
      ensures Storable() == old(Storable())
    {
      status := APPROVED;
    }

    /** `reject(r)`: whatever the current status, it becomes REJECTED with reason `r`; nothing else changes. */
    method Reject(rejectReason: Option<string>)
      modifies this`status, this`rejectReason
      ensures status == REJECTED && this.rejectReason == rejectReason
      ensures IsRejected() && !IsPending() && !IsApproved()
      ensures Storable() <==> FitsColumn(reason) && FitsColumn(rejectReason)
    {
      status := REJECTED;
      this.rejectReason := rejectReason;
    }

    predicate IsPending()
      reads this`status
    {
      status == PENDING
    }

    predicate IsApproved()
      reads this`status
    {
      status == APPROVED
    }

    predicate IsRejected()
      reads this`status
    {
      status == REJECTED
    }
  }

  /** At any time exactly one of the three status queries holds. */
  lemma ExactlyOneStatus(r: RefundRequest)
    ensures (if r.IsPending() then 1 else 0) + (if r.IsApproved() then 1 else 0)
          + (if r.IsRejected() then 1 else 0) == 1
  {
  }

  /** The three queries read the status alone: two requests with the same status answer alike. */
  lemma StatusQueriesReadOnlyStatus(a: RefundRequest, b: RefundRequest)
    requires a.status == b.status
    ensures a.IsPending() == b.IsPending() && a.IsApproved() == b.IsApproved()
    ensures a.IsRejected() == b.IsRejected()
  {
  }

  /**
   * Approving after rejecting (or the reverse) is not refused by the entity: the last call
   * wins, and a rejection reason set earlier stays in place.
   */
  method RejectThenApprove(r: RefundRequest, why: Option<string>)
    modifies r
    ensures r.IsApproved() && r.rejectReason == why
    ensures r.reason == old(r.reason) && r.user == old(r.user) && r.payment == old(r.payment)
  {
    r.Reject(why);
    r.Approve();
  }
}
