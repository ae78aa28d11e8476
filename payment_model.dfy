/** The Payment document of `backend/models/Payment.js`. */
module PaymentModel {
  import opened Common

  datatype PaymentMode = Cash | Cheque | Online | Card | UPI

  /** The schema default of `paymentMode`. */
  const DefaultPaymentMode: PaymentMode := Cash

  function PaymentModeName(m: PaymentMode): string
  {
    match m
    case Cash => "Cash"
    case Cheque => "Cheque"
    case Online => "Online"
    case Card => "Card"
    case UPI => "UPI"
  }

  /** The `enum` validator on `paymentMode`. */
  function ParsePaymentMode(s: string): (r: Option<PaymentMode>)
    ensures r.Some? <==> s in {"Cash", "Cheque", "Online", "Card", "UPI"}
  {
    if s == "Cash" then Some(Cash)
    else if s == "Cheque" then Some(Cheque)
    else if s == "Online" then Some(Online)
    else if s == "Card" then Some(Card)
    else if s == "UPI" then Some(UPI)
    else None
  }

  /** The validator accepts exactly the five names, each for its own mode. */
  lemma PaymentModeNames(m: PaymentMode, s: string)
    ensures ParsePaymentMode(PaymentModeName(m)) == Some(m)
    ensures ParsePaymentMode(s) == Some(m) ==> s == PaymentModeName(m)
  {
  }

  datatype Payment = Payment(
    id: nat,
    customerId: nat,
    amount: real,
    paymentMode: PaymentMode,
    paymentDate: int,
    referenceNumber: Option<string>,
    notes: Option<string>,
    companyId: Option<nat>,
    userId: nat)

  /** What the schema demands: `amount` at least 0. */
  predicate ValidPayment(p: Payment)
  {
    p.amount >= 0.0
  }
}
