/** The billing section of the job page: the invoice preview total is the duty,
    the processing fee and the brokerage service fee. */
module Billing {
  import DutyPayment

  const ServiceFee := 450

  /** The preview total; `invoiceAmount` is a prop the section does not use. */
  function InvoiceTotal(invoiceAmount: int, dutyAmount: int): (t: int)
    ensures t == dutyAmount + 978
  {
    dutyAmount + 528 + ServiceFee
  }

  /** The total ignores the invoice amount and exceeds the duty section's total due by the service fee. */
  lemma InvoiceTotalSpec(invoiceAmount: int, otherInvoiceAmount: int, dutyAmount: int)
    ensures InvoiceTotal(invoiceAmount, dutyAmount) == InvoiceTotal(otherInvoiceAmount, dutyAmount)
    ensures InvoiceTotal(invoiceAmount, dutyAmount) == DutyPayment.TotalDue(dutyAmount) + 450
  {
  }
}
