/** The Customer document of `backend/models/Customer.js`. */
module CustomerModel {
  import opened Common

  /** The schema default of `countryCode`. */
  const DefaultCountryCode: string := "+91"

  /** A customer with its contact fields and the four running aggregates.
      `balance` is signed: a negative balance is credit held for the customer. */
  datatype Customer = Customer(
    id: nat,
    name: string,
    countryCode: string,
    mobile: string,
    address: Option<string>,
    gstNumber: Option<string>,
    totalBills: int,
    totalAmount: real,
    totalPaid: real,
    balance: real,
    companyId: Option<nat>,
    userId: nat)

  /** What the schema demands: `name` and `mobile` present and non-empty.
      `mobile` carries no unique index and `balance` no lower bound. */
  predicate ValidCustomer(c: Customer)
  {
    c.name != "" && c.mobile != ""
  }

  /** The balance identity every bill and payment handler keeps. */
  predicate Balanced(c: Customer)
  {
    c.balance == c.totalAmount - c.totalPaid
  }

  /** A freshly stored customer: the schema defaults give it zero aggregates. */
  function NewCustomer(
    id: nat, name: string, countryCode: string, mobile: string,
    address: Option<string>, gstNumber: Option<string>, companyId: Option<nat>, userId: nat): (c: Customer)
    ensures c.totalBills == 0 && c.totalAmount == 0.0 && c.totalPaid == 0.0 && c.balance == 0.0
    ensures Balanced(c)
    ensures c.id == id && c.userId == userId && c.name == name && c.mobile == mobile
  {
    Customer(id, name, countryCode, mobile, address, gstNumber, 0, 0.0, 0.0, 0.0, companyId, userId)
  }

  /** The mobile number printed on a bill: `${countryCode}${mobile}`. */
  function MobileWithCode(c: Customer): (r: string)
    ensures |r| == |c.countryCode| + |c.mobile|
    ensures ValidCustomer(c) ==> r != ""
  {
    c.countryCode + c.mobile
  }
}
