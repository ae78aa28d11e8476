/** The Bill and BillItem documents of `backend/models/Bill.js`: their enums,
    bounds, required fields and defaults. */
module BillModel {
  import opened Common

  /** `billType`: one of three document kinds. */
  datatype BillType = CHALLAN | INVOICE | QUOTATION

  /** `paymentStatus`: declared by the schema, never changed by a handler. */
  datatype PaymentStatus = Unpaid | PartiallyPaid | Paid

  /** The schema default of `billType`. */
  const DefaultBillType: BillType := CHALLAN

  /** The schema default of `paymentStatus`. */
  const DefaultPaymentStatus: PaymentStatus := Unpaid

  function BillTypeName(t: BillType): string
  {
    match t
    case CHALLAN => "CHALLAN"
    case INVOICE => "INVOICE"
    case QUOTATION => "QUOTATION"
  }

  /** The `enum` validator: the stored kind a request string names, if any. */
  function ParseBillType(s: string): (r: Option<BillType>)
    ensures r.Some? <==> s in {"CHALLAN", "INVOICE", "QUOTATION"}
  {
    if s == "CHALLAN" then Some(CHALLAN)
    else if s == "INVOICE" then Some(INVOICE)
    else if s == "QUOTATION" then Some(QUOTATION)
    else None
  }

  /** The enum validator accepts exactly the three names, each for its own kind. */
  lemma BillTypeNames(t: BillType, s: string)
    ensures ParseBillType(BillTypeName(t)) == Some(t)
    ensures ParseBillType(s) == Some(t) ==> s == BillTypeName(t)
  {
  }

  /** One line of a bill. `productName` and `unit` are copied from the request
      and may be absent; the validator below refuses them then. */
  datatype BillItem = BillItem(
    srNo: int,
    productId: Option<nat>,
    productName: Option<string>,
    quantity: real,
    unit: Option<string>,
    totalMtr: real,
    rate: real,
    amount: real,
    gstRate: real,
    gstAmount: real)

  /** What the item schema demands: `productName` and `unit` present and
      non-empty, `quantity`, `rate` and `amount` at least 0. `gstRate`,
      `gstAmount` and `totalMtr` have no bound. */
  predicate ValidItem(i: BillItem)
  {
    && Truthy(i.productName)
    && Truthy(i.unit)
    && i.quantity >= 0.0
    && i.rate >= 0.0
    && i.amount >= 0.0
  }

  datatype Bill = Bill(
    id: nat,
    billNumber: string,
    billType: BillType,
    customerId: nat,
    customerName: string,
    customerMobile: string,
    date: int,
    items: seq<BillItem>,
    subtotal: real,
    gstTotal: real,
    total: real,
    amountInWords: string,
    previousBalance: real,
    closingBalance: real,
    paidAmount: real,
    paymentStatus: PaymentStatus,
    notes: Option<string>,
    companyId: Option<nat>,
    userId: nat)

  /** What the bill schema demands of one document: the required strings are
      non-empty and every item is valid. */
  predicate ValidBill(b: Bill)
  {
    && b.billNumber != ""
    && b.customerName != ""
    && b.customerMobile != ""
    && forall k :: 0 <= k < |b.items| ==> ValidItem(b.items[k])
  }

  /** The `unique: true` index on `billNumber`: it spans the whole collection,
      not one tenant's bills. */
  predicate BillNumberTaken(bills: seq<Bill>, n: string)
  {
    exists k :: 0 <= k < |bills| && bills[k].billNumber == n
  }

  predicate UniqueBillNumbers(bills: seq<Bill>)
  {
    forall i, j :: 0 <= i < j < |bills| ==> bills[i].billNumber != bills[j].billNumber
  }

  /** Adding a bill whose number is not taken keeps the numbers unique. */
  lemma UniqueAfterAppend(bills: seq<Bill>, b: Bill)
    requires UniqueBillNumbers(bills) && !BillNumberTaken(bills, b.billNumber)
    ensures UniqueBillNumbers(bills + [b])
  {
  }
}
