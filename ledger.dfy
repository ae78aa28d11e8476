/** The customer ledger of GET /customers/:id/ledger in
    `backend/routes/customers.js`: bills become debit rows, payments credit
    rows, the two are merged and sorted newest first, and the summary is the
    customer's stored aggregates. */
module Ledger {
  import opened Common
  import opened BillModel
  import opened CustomerModel
  import opened PaymentModel

  /** One ledger row. A bill row carries the bill's closing balance; a payment
      row has no balance at all. */
  datatype Entry =
    | BillRow(date: int, billNumber: string, debit: real, credit: real, balance: real, id: nat)
    | PaymentRow(date: int, paymentMode: PaymentMode, referenceNumber: Option<string>,
                 notes: Option<string>, debit: real, credit: real, id: nat)

  datatype Summary = Summary(totalBills: int, totalAmount: real, totalPaid: real, balance: real)

  datatype View = View(customer: Customer, ledger: seq<Entry>, summary: Summary)

  function BillRowOf(b: Bill): Entry
  {
    BillRow(b.date, b.billNumber, b.total, 0.0, b.closingBalance, b.id)
  }

  function PaymentRowOf(p: Payment): Entry
  {
    PaymentRow(p.paymentDate, p.paymentMode, p.referenceNumber, p.notes, 0.0, p.amount, p.id)
  }

  function BillRows(bills: seq<Bill>): (r: seq<Entry>)
    ensures |r| == |bills|
    ensures forall k :: 0 <= k < |r| ==> r[k] == BillRowOf(bills[k])
  {
    seq(|bills|, k requires 0 <= k < |bills| => BillRowOf(bills[k]))
  }

  function PaymentRows(payments: seq<Payment>): (r: seq<Entry>)
    ensures |r| == |payments|
    ensures forall k :: 0 <= k < |r| ==> r[k] == PaymentRowOf(payments[k])
  {
    seq(|payments|, k requires 0 <= k < |payments| => PaymentRowOf(payments[k]))
  }

  /** Dates never increase along the rows. */
  predicate NewestFirst(s: seq<Entry>)
  {
    forall i, j :: 0 <= i < j < |s| ==> s[i].date >= s[j].date
  }

  /** No row is dated after `d`. */
  predicate NotAfter(s: seq<Entry>, d: int)
  {
    forall k :: 0 <= k < |s| ==> s[k].date <= d
  }

  /** Rows that are a permutation of rows not dated after `d` are not dated after `d`. */
  lemma NotAfterPermutation(a: seq<Entry>, b: seq<Entry>, d: int)
    requires multiset(a) == multiset(b) && NotAfter(b, d)
    ensures NotAfter(a, d)
  {
    forall k | 0 <= k < |a|
      ensures a[k].date <= d
    {
      assert a[k] in multiset(b);
    }
  }

  /** Places `e` before the first row that is not newer than it, so rows of
      equal date keep their order (`Array.prototype.sort` is stable). */
  function Insert(e: Entry, s: seq<Entry>): (r: seq<Entry>)
    requires NewestFirst(s)
    ensures NewestFirst(r)
    ensures multiset(r) == multiset(s) + multiset{e}
    ensures |r| == |s| + 1
  {
    if s == [] || s[0].date <= e.date then
      [e] + s
    else
      var rest := Insert(e, s[1..]);
      assert s == [s[0]] + s[1..];
      NotAfterPermutation(rest, s[1..] + [e], s[0].date);
      [s[0]] + rest
  }

  /** `.sort((a, b) => new Date(b.date) - new Date(a.date))`. */
  function SortNewestFirst(s: seq<Entry>): (r: seq<Entry>)
    ensures NewestFirst(r)
    ensures multiset(r) == multiset(s)
    ensures |r| == |s|
  {
    if s == [] then []
    else
      assert s == [s[0]] + s[1..];
      Insert(s[0], SortNewestFirst(s[1..]))
  }

  /** The ledger view of customer `c` given its bills and its payments: the
      merged rows, sorted, and the stored aggregates copied into the summary. */
  function LedgerView(c: Customer, bills: seq<Bill>, payments: seq<Payment>): (v: View)
    ensures |v.ledger| == |bills| + |payments|
    ensures NewestFirst(v.ledger)
    ensures multiset(v.ledger) == multiset(BillRows(bills) + PaymentRows(payments))
    ensures v.summary == Summary(c.totalBills, c.totalAmount, c.totalPaid, c.balance)
    ensures v.customer == c
  {
    View(c, SortNewestFirst(BillRows(bills) + PaymentRows(payments)),
         Summary(c.totalBills, c.totalAmount, c.totalPaid, c.balance))
  }

  /** Every row of the ledger comes from one of the bills, as a debit of its
      total with its closing balance, or from one of the payments, as a
      credit of its amount with no balance. */
  lemma LedgerRowsMeaning(c: Customer, bills: seq<Bill>, payments: seq<Payment>, k: nat)
    requires k < |LedgerView(c, bills, payments).ledger|
    ensures var e := LedgerView(c, bills, payments).ledger[k];
            || (e.BillRow? && e.credit == 0.0 &&
                exists i :: 0 <= i < |bills| && e.debit == bills[i].total && e.balance == bills[i].closingBalance
                            && e.date == bills[i].date && e.id == bills[i].id)
            || (e.PaymentRow? && e.debit == 0.0 &&
                exists i :: 0 <= i < |payments| && e.credit == payments[i].amount
                            && e.date == payments[i].paymentDate && e.id == payments[i].id)
  {
    var rows := BillRows(bills) + PaymentRows(payments);
    var e := LedgerView(c, bills, payments).ledger[k];
    assert e in multiset(rows);
    var j :| 0 <= j < |rows| && rows[j] == e;
    if j < |bills| {
      assert rows[j] == BillRowOf(bills[j]);
    } else {
      assert rows[j] == PaymentRowOf(payments[j - |bills|]);
    }
  }

  /** One bill of total 236 dated after one payment of 100: two rows, the
      bill first, and the summary balance is the stored 136 whatever the rows say. */
  lemma TwoRowExample(c: Customer, b: Bill, p: Payment)
    requires b.total == 236.0 && p.amount == 100.0 && b.date > p.paymentDate
    requires c.balance == 136.0
    ensures var v := LedgerView(c, [b], [p]);
            && v.ledger == [BillRowOf(b), PaymentRowOf(p)]
            && v.ledger[0].debit == 236.0 && v.ledger[1].credit == 100.0
            && v.summary.balance == 136.0
  {
    var rows := [BillRowOf(b), PaymentRowOf(p)];
    assert BillRows([b]) + PaymentRows([p]) == rows;
    assert rows[1..] == [PaymentRowOf(p)];
    assert SortNewestFirst([PaymentRowOf(p)]) == [PaymentRowOf(p)] by {
      assert [PaymentRowOf(p)][1..] == [];
    }
    assert Insert(BillRowOf(b), [PaymentRowOf(p)]) == rows;
  }
}
