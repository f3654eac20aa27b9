/** Payment records and their lifecycle: created pending, given a UTR
    (bank transaction reference), verified by an admin. */
module Payments {
  import opened Records

  /** The position of the first payment with this id, as the search loops
      of `update_payment_utr` and `verify_payment` find it. */
  function FirstMatch(ps: seq<Payment>, paymentId: string): (r: Option<nat>)
    ensures r.Some? ==> r.value < |ps| && ps[r.value].paymentId == paymentId
    ensures r.Some? ==> forall j :: 0 <= j < r.value ==> ps[j].paymentId != paymentId
    ensures r.None? ==> forall j :: 0 <= j < |ps| ==> ps[j].paymentId != paymentId
  {
    if ps == [] then None
    else if ps[0].paymentId == paymentId then Some(0)
    else match FirstMatch(ps[1..], paymentId)
      case None => None
      case Some(i) => Some(i + 1)
  }

  /** The record after a UTR is attached. */
  function WithUtr(p: Payment, utr: string): (r: Payment)
    ensures r.status == PendingVerification && WellFormed(r)
    ensures r.paymentId == p.paymentId && r.userId == p.userId && r.amount == p.amount
  {
    p.(utr := Some(utr), status := PendingVerification)
  }

  /** The record after an admin verifies it for `amount`. */
  function Verify(p: Payment, amount: Money, verifiedBy: int, now: Time): (r: Payment)
    ensures r.status == Verified && WellFormed(r) && r.amount == Some(amount)
    ensures r.paymentId == p.paymentId && r.userId == p.userId && r.utr == p.utr
  {
    p.(status := Verified, amount := Some(amount), verifiedAt := Some(now.text), verifiedBy := Some(verifiedBy))
  }

  /** What each status implies about the record: a pending payment has
      neither reference nor amount, one awaiting verification has a UTR,
      a verified one has its amount, time and verifier. */
  ghost predicate WellFormed(p: Payment)
  {
    && (p.status == Pending ==> p.utr.None? && p.amount.None? && p.verifiedBy.None?)
    && (p.status == PendingVerification ==> p.utr.Some?)
    && (p.status == Verified ==> p.amount.Some? && p.verifiedAt.Some? && p.verifiedBy.Some?)
  }

  /** Every step of the lifecycle leaves a record well formed, whatever
      record it starts from. */
  lemma LifecycleWellFormed(p: Payment, utr: string, amount: Money, verifiedBy: int, now: Time)
    ensures WellFormed(NewPayment(p.paymentId, p.userId, now))
    ensures WellFormed(WithUtr(p, utr)) && WithUtr(p, utr).status == PendingVerification
    ensures WellFormed(Verify(p, amount, verifiedBy, now)) && Verify(p, amount, verifiedBy, now).status == Verified
  {
  }
}
