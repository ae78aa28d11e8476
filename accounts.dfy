/** How bills and payments move a customer's four aggregates
    (`backend/routes/bills.js` and `backend/routes/payments.js`), and what it
    means for those aggregates to agree with the stored bills and payments. */
module Accounts {
  import opened Common
  import opened BillModel
  import opened CustomerModel
  import opened PaymentModel

  /** POST /bills: one more bill, its total added to `totalAmount`, and the
      balance moved to the bill's closing balance (previous balance + total). */
  function WithBill(c: Customer, total: real): (r: Customer)
    ensures r.totalBills == c.totalBills + 1
    ensures r.totalAmount == c.totalAmount + total && r.totalPaid == c.totalPaid
    ensures r.balance == c.balance + total
    ensures Balanced(c) ==> Balanced(r)
  {
    c.(totalBills := c.totalBills + 1, totalAmount := c.totalAmount + total, balance := c.balance + total)
  }

  /** DELETE /bills/:id: the bill's count and total taken back out. */
  function WithoutBill(c: Customer, total: real): (r: Customer)
    ensures r.totalBills == c.totalBills - 1
    ensures r.totalAmount == c.totalAmount - total && r.totalPaid == c.totalPaid
    ensures r.balance == c.balance - total
    ensures Balanced(c) ==> Balanced(r)
  {
    c.(totalBills := c.totalBills - 1, totalAmount := c.totalAmount - total, balance := c.balance - total)
  }

  /** PUT /bills/:id with items: the old total reverted and the new one applied. */
  function Rebilled(c: Customer, oldTotal: real, newTotal: real): (r: Customer)
    ensures r.totalBills == c.totalBills && r.totalPaid == c.totalPaid
    ensures r.totalAmount - c.totalAmount == newTotal - oldTotal
    ensures r.balance - c.balance == newTotal - oldTotal
    ensures Balanced(c) ==> Balanced(r)
  {
    c.(totalAmount := c.totalAmount - oldTotal + newTotal, balance := c.balance - oldTotal + newTotal)
  }

  /** PUT /bills/:id without items, as written: the revert runs, nothing is re-applied. */
  function Unbilled(c: Customer, oldTotal: real): (r: Customer)
    ensures r.totalBills == c.totalBills && r.totalPaid == c.totalPaid
    ensures r.totalAmount == c.totalAmount - oldTotal && r.balance == c.balance - oldTotal
    ensures Balanced(c) ==> Balanced(r)
  {
    c.(totalAmount := c.totalAmount - oldTotal, balance := c.balance - oldTotal)
  }

  /** POST /payments: `totalPaid` up and `balance` down by the amount, with
      no floor, so the balance may go negative (credit). */
  function WithPayment(c: Customer, amount: real): (r: Customer)
    ensures r.totalPaid == c.totalPaid + amount && r.balance == c.balance - amount
    ensures r.totalBills == c.totalBills && r.totalAmount == c.totalAmount
    ensures Balanced(c) ==> Balanced(r)
  {
    c.(totalPaid := c.totalPaid + amount, balance := c.balance - amount)
  }

  /** DELETE /payments/:id: the payment's amount given back. */
  function WithoutPayment(c: Customer, amount: real): (r: Customer)
    ensures r.totalPaid == c.totalPaid - amount && r.balance == c.balance + amount
    ensures r.totalBills == c.totalBills && r.totalAmount == c.totalAmount
    ensures Balanced(c) ==> Balanced(r)
  {
    c.(totalPaid := c.totalPaid - amount, balance := c.balance + amount)
  }

  /** Deleting a bill undoes creating it, and deleting a payment undoes
      recording it; re-totalling to the same total changes nothing. */
  lemma Inverses(c: Customer, total: real, amount: real)
    ensures WithoutBill(WithBill(c, total), total) == c
    ensures WithoutPayment(WithPayment(c, amount), amount) == c
    ensures Rebilled(c, total, total) == c
  {
  }

  /** The share of one stored bill in customer `cid`'s billed total. */
  function BillShare(cid: nat): Bill -> real
  {
    (b: Bill) => if b.customerId == cid then b.total else 0.0
  }

  function IsBillOf(cid: nat): Bill -> bool
  {
    (b: Bill) => b.customerId == cid
  }

  function PaymentShare(cid: nat): Payment -> real
  {
    (p: Payment) => if p.customerId == cid then p.amount else 0.0
  }

  /** The sum of the totals of the stored bills of customer `cid`. */
  function BilledTotal(bills: seq<Bill>, cid: nat): real
  {
    SumBy(bills, BillShare(cid))
  }

  /** The number of stored bills of customer `cid`. */
  function BillCount(bills: seq<Bill>, cid: nat): nat
  {
    CountBy(bills, IsBillOf(cid))
  }

  /** The sum of the amounts of the stored payments of customer `cid`. */
  function PaidTotal(payments: seq<Payment>, cid: nat): real
  {
    SumBy(payments, PaymentShare(cid))
  }

  /** The customer's aggregates agree with the stored records: `totalBills`
      counts its bills, `totalAmount` sums their totals, `totalPaid` sums its
      payments, and so `balance` is what is billed minus what is paid. */
  predicate Consistent(c: Customer, bills: seq<Bill>, payments: seq<Payment>)
  {
    && c.totalBills == BillCount(bills, c.id)
    && c.totalAmount == BilledTotal(bills, c.id)
    && c.totalPaid == PaidTotal(payments, c.id)
    && Balanced(c)
  }

  /** A new customer, referenced by no stored record, is consistent. */
  lemma NewCustomerConsistent(c: Customer, bills: seq<Bill>, payments: seq<Payment>)
    requires c.totalBills == 0 && c.totalAmount == 0.0 && c.totalPaid == 0.0 && c.balance == 0.0
    requires forall k :: 0 <= k < |bills| ==> bills[k].customerId != c.id
    requires forall k :: 0 <= k < |payments| ==> payments[k].customerId != c.id
    ensures Consistent(c, bills, payments)
  {
    SumByZero(bills, BillShare(c.id));
    CountByZero(bills, IsBillOf(c.id));
    SumByZero(payments, PaymentShare(c.id));
  }

  /** Storing a new bill for `c` and applying `WithBill` keeps `c` consistent;
      every other customer is untouched by the new bill. */
  lemma AddBillConsistent(c: Customer, bills: seq<Bill>, payments: seq<Payment>, b: Bill)
    requires Consistent(c, bills, payments)
    ensures b.customerId == c.id ==> Consistent(WithBill(c, b.total), bills + [b], payments)
    ensures b.customerId != c.id ==> Consistent(c, bills + [b], payments)
  {
    SumByAppend(bills, b, BillShare(c.id));
    CountByAppend(bills, b, IsBillOf(c.id));
  }

  /** Removing the stored bill at `i` and applying `WithoutBill` to its
      customer keeps that customer consistent; other customers are untouched. */
  lemma RemoveBillConsistent(c: Customer, bills: seq<Bill>, payments: seq<Payment>, i: nat)
    requires i < |bills| && Consistent(c, bills, payments)
    ensures bills[i].customerId == c.id ==>
              Consistent(WithoutBill(c, bills[i].total), RemoveAt(bills, i), payments)
    ensures bills[i].customerId != c.id ==> Consistent(c, RemoveAt(bills, i), payments)
  {
    SumByRemove(bills, i, BillShare(c.id));
    CountByRemove(bills, i, IsBillOf(c.id));
  }

  /** Replacing the stored bill at `i` by one of the same customer with a new
      total, and applying `Rebilled`, keeps that customer consistent. */
  lemma ReplaceBillConsistent(c: Customer, bills: seq<Bill>, payments: seq<Payment>, i: nat, b: Bill)
    requires i < |bills| && Consistent(c, bills, payments)
    requires b.customerId == bills[i].customerId
    ensures bills[i].customerId == c.id ==>
              Consistent(Rebilled(c, bills[i].total, b.total), bills[i := b], payments)
    ensures bills[i].customerId != c.id ==> Consistent(c, bills[i := b], payments)
  {
    SumByUpdate(bills, i, b, BillShare(c.id));
    CountByUpdate(bills, i, b, IsBillOf(c.id));
  }

  /** Storing a new payment for `c` and applying `WithPayment` keeps `c` consistent. */
  lemma AddPaymentConsistent(c: Customer, bills: seq<Bill>, payments: seq<Payment>, p: Payment)
    requires Consistent(c, bills, payments)
    ensures p.customerId == c.id ==> Consistent(WithPayment(c, p.amount), bills, payments + [p])
    ensures p.customerId != c.id ==> Consistent(c, bills, payments + [p])
  {
    SumByAppend(payments, p, PaymentShare(c.id));
  }

  /** Removing the stored payment at `i` and applying `WithoutPayment` keeps its customer consistent. */
  lemma RemovePaymentConsistent(c: Customer, bills: seq<Bill>, payments: seq<Payment>, i: nat)
    requires i < |payments| && Consistent(c, bills, payments)
    ensures payments[i].customerId == c.id ==>
              Consistent(WithoutPayment(c, payments[i].amount), bills, RemoveAt(payments, i))
    ensures payments[i].customerId != c.id ==> Consistent(c, bills, RemoveAt(payments, i))
  {
    SumByRemove(payments, i, PaymentShare(c.id));
  }

  /** The PUT quirk: a consistent customer with one bill of total 100 is no
      longer consistent after a PUT of that bill without items, because the
      revert runs and the bill keeps its total. */
  lemma UnbilledBreaksConsistency()
    ensures var b := Bill(1, "1", CHALLAN, 0, "A", "+911", 0, [], 100.0, 0.0, 100.0, "", 0.0, 100.0,
                          0.0, Unpaid, None, None, 7);
            var c := Customer(0, "A", "+91", "1", None, None, 1, 100.0, 0.0, 100.0, None, 7);
            && Consistent(c, [b], [])
            && !Consistent(Unbilled(c, b.total), [b], [])
  {
    var b := Bill(1, "1", CHALLAN, 0, "A", "+911", 0, [], 100.0, 0.0, 100.0, "", 0.0, 100.0,
                  0.0, Unpaid, None, None, 7);
    SumByAppend([], b, BillShare(0));
    CountByAppend([], b, IsBillOf(0));
    assert [b] == [] + [b];
  }
}
