/** The duty and payment section of the job page: the total due is the duty
    plus the fixed merchandise processing fee, and a one-way "paid" flag. */
module DutyPayment {

  /** Merchandise processing fee added to every duty amount. */
  const Mpf := 528

  function TotalDue(dutyAmount: int): (t: int)
    ensures t - dutyAmount == 528
  {
    dutyAmount + Mpf
  }

  datatype Badge = Badge(text: string, cssClass: string)

  function PaymentBadge(isPaid: bool): (b: Badge)
    ensures b.text == "Paid" <==> isPaid
    ensures !isPaid ==> b == Badge("Payment Due", "status-pending")
    ensures isPaid ==> b.cssClass == "status-cleared"
  {
    if isPaid then Badge("Paid", "status-cleared") else Badge("Payment Due", "status-pending")
  }

  /** "Mark as Paid" is the only control that changes the flag; it is offered only while unpaid. */
  predicate MarkAsPaidOffered(isPaid: bool) { !isPaid }

  class DutyPaymentCard {
    const dutyAmount: int
    var isPaid: bool

    constructor (dutyAmount: int)
      ensures this.dutyAmount == dutyAmount && !isPaid
    {
      this.dutyAmount := dutyAmount;
      isPaid := false;
    }

    method MarkAsPaid()
      requires MarkAsPaidOffered(isPaid)
      modifies this
      ensures isPaid
    {
      isPaid := true;
    }

    function Badge(): Badge
      reads this
    {
      PaymentBadge(isPaid)
    }
  }

  /** Once paid, no control remains that could change the flag again. */
  lemma PaidIsFinal()
    ensures !MarkAsPaidOffered(true)
    ensures PaymentBadge(true).text == "Paid"
  {
  }
}
