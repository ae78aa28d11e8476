/** The ledger engine: the customer, bill and payment route handlers of
    `backend/routes/customers.js`, `backend/routes/bills.js` and
    `backend/routes/payments.js`, acting on the three collections they share.
    Every handler runs as one atomic step; each returns the HTTP outcome. */
module Engine {
  import opened Common
  import opened BillModel
  import opened CustomerModel
  import opened PaymentModel
  import opened Billing
  import opened Accounts
  import opened Customers
  import opened Ledger

  /** `Customer.findOne({ _id, userId })`. */
  function OwnedCustomer(cs: seq<Customer>, id: nat, u: nat): Option<nat>
  {
    FirstIndex(cs, (c: Customer) => c.id == id && c.userId == u)
  }

  /** `Customer.findById(id)`: not restricted to the tenant. */
  function CustomerById(cs: seq<Customer>, id: nat): Option<nat>
  {
    FirstIndex(cs, (c: Customer) => c.id == id)
  }

  /** `Bill.findOne({ _id, userId })`. */
  function OwnedBill(bs: seq<Bill>, id: nat, u: nat): Option<nat>
  {
    FirstIndex(bs, (b: Bill) => b.id == id && b.userId == u)
  }

  /** `Payment.findOne({ _id, userId })`. */
  function OwnedPayment(ps: seq<Payment>, id: nat, u: nat): Option<nat>
  {
    FirstIndex(ps, (p: Payment) => p.id == id && p.userId == u)
  }

  /** The position of the tenant's most recently created bill: the
      collection keeps bills in creation order. */
  function LastOwnedIndex(bills: seq<Bill>, u: nat): (r: Option<nat>)
    ensures r.None? ==> forall k :: 0 <= k < |bills| ==> bills[k].userId != u
    ensures r.Some? ==> r.value < |bills| && bills[r.value].userId == u
    ensures r.Some? ==> forall j :: r.value < j < |bills| ==> bills[j].userId != u
  {
    if bills == [] then None
    else if bills[|bills| - 1].userId == u then Some(|bills| - 1)
    else LastOwnedIndex(bills[..|bills| - 1], u)
  }

  /** `Bill.findOne({ userId }).sort({ createdAt: -1 })`, reduced to its number. */
  function LastBillNumber(bills: seq<Bill>, u: nat): Option<string>
  {
    match LastOwnedIndex(bills, u)
    case None => None
    case Some(k) => Some(bills[k].billNumber)
  }

  /** The numbers `getNextBillNumber` produces are never empty. */
  lemma NextBillNumberNonEmpty(last: Option<string>)
    ensures NextBillNumber(last) != ""
  {
  }

  /** The unique index spans every tenant: while another tenant holds bill "1",
      a tenant with no bill is offered "1", which is taken. */
  lemma SecondTenantFirstNumberTaken(bills: seq<Bill>, u: nat, k: nat)
    requires k < |bills| && bills[k].billNumber == "1" && bills[k].userId != u
    requires forall j :: 0 <= j < |bills| ==> bills[j].userId != u
    ensures NextBillNumber(LastBillNumber(bills, u)) == "1"
    ensures BillNumberTaken(bills, NextBillNumber(LastBillNumber(bills, u)))
  {
  }

  /** `billType || 'CHALLAN'`, checked against the enum. */
  function BillTypeOrDefault(t: Option<string>): (r: Option<BillType>)
    ensures !Truthy(t) ==> r == Some(DefaultBillType)
    ensures Truthy(t) ==> r == ParseBillType(t.value)
    ensures r.None? <==> Truthy(t) && t.value !in {"CHALLAN", "INVOICE", "QUOTATION"}
  {
    if Truthy(t) then ParseBillType(t.value) else Some(CHALLAN)
  }

  /** `paymentMode || 'Cash'`, checked against the enum. */
  function PaymentModeOrDefault(m: Option<string>): (r: Option<PaymentMode>)
    ensures !Truthy(m) ==> r == Some(DefaultPaymentMode)
    ensures Truthy(m) ==> r == ParsePaymentMode(m.value)
    ensures r.None? <==> Truthy(m) && m.value !in {"Cash", "Cheque", "Online", "Card", "UPI"}
  {
    if Truthy(m) then ParsePaymentMode(m.value) else Some(Cash)
  }

  predicate HasItems(items: Option<seq<ItemInput>>)
  {
    items.Some? && |items.value| > 0
  }

  /** A non-empty `items` array in which some item lacks `quantity` or `rate`. */
  predicate Unpriced(items: Option<seq<ItemInput>>)
  {
    HasItems(items) && !Priced(items.value)
  }

  /** The document POST /bills stores for customer `c`: the previous balance
      is the customer's balance before the bill and the closing balance adds
      the bill's total to it; payment tracking starts at Unpaid and 0. */
  function NewBill(
    id: nat, number: string, kind: BillType, c: Customer, date: int, lines: seq<BillItem>,
    notes: Option<string>, companyId: Option<nat>, u: nat, words: real -> string): (b: Bill)
    ensures b.total == Subtotal(lines) + GstTotal(lines)
    ensures b.previousBalance == c.balance && b.closingBalance == b.previousBalance + b.total
    ensures b.customerId == c.id && b.userId == u && b.billNumber == number && b.items == lines
    ensures b.paidAmount == 0.0 && b.paymentStatus == DefaultPaymentStatus
    ensures b.subtotal == Subtotal(lines) && b.gstTotal == GstTotal(lines) && b.amountInWords == words(b.total)
    ensures b.id == id && b.billType == kind && b.date == date && b.notes == notes && b.companyId == companyId
    ensures b.customerName == c.name && b.customerMobile == MobileWithCode(c)
  {
    var total := Subtotal(lines) + GstTotal(lines);
    Bill(id, number, kind, c.id, c.name, MobileWithCode(c), date, lines, Subtotal(lines), GstTotal(lines),
         total, words(total), c.balance, c.balance + total, 0.0, Unpaid, notes, companyId, u)
  }

  /** The document PUT /bills/:id saves. With items, every derived field is
      recomputed and the closing balance re-chained from the bill's own,
      unchanged, previous balance; without items the totals stay. `notes`
      changes when given, the kind when one is named. */
  function RevisedBill(
    b: Bill, items: Option<seq<ItemInput>>, notes: Option<string>, kind: BillType,
    words: real -> string): (r: Bill)
    ensures r.id == b.id && r.billNumber == b.billNumber && r.customerId == b.customerId
    ensures r.userId == b.userId && r.date == b.date && r.previousBalance == b.previousBalance
    ensures HasItems(items) ==> r.items == LineItems(items.value)
                                && r.total == Subtotal(r.items) + GstTotal(r.items)
                                && r.closingBalance == b.previousBalance + r.total
    ensures HasItems(items) ==> r.subtotal == Subtotal(r.items) && r.gstTotal == GstTotal(r.items)
                                && r.amountInWords == words(r.total)
    ensures !HasItems(items) ==> r.items == b.items && r.total == b.total && r.closingBalance == b.closingBalance
                                 && r.subtotal == b.subtotal && r.gstTotal == b.gstTotal
                                 && r.amountInWords == b.amountInWords
    ensures r.notes == (if notes.Some? then notes else b.notes) && r.billType == kind
    ensures r.customerName == b.customerName && r.customerMobile == b.customerMobile && r.companyId == b.companyId
    ensures r.paidAmount == b.paidAmount && r.paymentStatus == b.paymentStatus
  {
    var b' := if HasItems(items) then Retotalled(b, LineItems(items.value), words) else b;
    b'.(notes := if notes.Some? then notes else b.notes, billType := kind)
  }

  /** The bill with new lines: subtotal, GST total, total, closing balance and
      amount in words all follow from the lines. */
  function Retotalled(b: Bill, lines: seq<BillItem>, words: real -> string): (r: Bill)
    ensures r.items == lines && r.total == Subtotal(lines) + GstTotal(lines)
    ensures r.closingBalance == b.previousBalance + r.total
    ensures r.subtotal == Subtotal(lines) && r.gstTotal == GstTotal(lines) && r.amountInWords == words(r.total)
    ensures r.id == b.id && r.billNumber == b.billNumber && r.customerId == b.customerId
    ensures r.billType == b.billType && r.date == b.date && r.notes == b.notes && r.userId == b.userId
    ensures r.previousBalance == b.previousBalance && r.companyId == b.companyId
    ensures r.customerName == b.customerName && r.customerMobile == b.customerMobile
    ensures r.paidAmount == b.paidAmount && r.paymentStatus == b.paymentStatus
  {
    var total := Subtotal(lines) + GstTotal(lines);
    b.(items := lines, subtotal := Subtotal(lines), gstTotal := GstTotal(lines), total := total,
       closingBalance := b.previousBalance + total, amountInWords := words(total))
  }

  /** The kind a PUT leaves on bill `b`: the named one when `billType` is
      truthy (None when the enum refuses it), else the bill's own. */
  function PutBillType(b: Bill, billType: Option<string>): (r: Option<BillType>)
    ensures !Truthy(billType) ==> r == Some(b.billType)
    ensures Truthy(billType) ==> (r.Some? <==> billType.value in {"CHALLAN", "INVOICE", "QUOTATION"})
  {
    if Truthy(billType) then ParseBillType(billType.value) else Some(b.billType)
  }

  /** The in-memory work of PUT /bills/:id on the loaded bill `b` and its
      customer `c`, with the old total reverted only when new items replace it. */
  method ReviseBill(
    b: Bill, c: Customer, items: Option<seq<ItemInput>>, notes: Option<string>, billType: Option<string>,
    words: real -> string) returns (kind: Option<BillType>, b': Bill, c': Customer)
    ensures kind == PutBillType(b, billType)
    ensures kind.Some? ==> b' == RevisedBill(b, items, notes, kind.value, words)
    ensures kind.Some? ==> c' == Rebilled(c, b.total, b'.total)
  {
    b', c' := b, c;
    if items.Some? && |items.value| > 0 {
      c' := c'.(totalAmount := c'.totalAmount - b.total, balance := c'.balance - b.total);
      var lines, subtotal, gstTotal := ProcessItems(items.value);
      var total := subtotal + gstTotal;
      b' := Retotalled(b', lines, words);
      c' := c'.(totalAmount := c'.totalAmount + total, balance := c'.balance + total);
    }
    b' := b'.(notes := if notes.Some? then notes else b'.notes);
    kind := if Truthy(billType) then ParseBillType(billType.value) else Some(b'.billType);
    if kind.Some? {
      b' := b'.(billType := kind.value);
    }
  }

  /** The same work as written: the old total leaves the customer before the
      items are looked at. */
  method ReviseBillAsWritten(
    b: Bill, c: Customer, items: Option<seq<ItemInput>>, notes: Option<string>, billType: Option<string>,
    words: real -> string) returns (kind: Option<BillType>, b': Bill, c': Customer)
    ensures kind == PutBillType(b, billType)
    ensures kind.Some? ==> b' == RevisedBill(b, items, notes, kind.value, words)
    ensures kind.Some? ==> c' == if HasItems(items) then Rebilled(c, b.total, b'.total) else Unbilled(c, b.total)
  {
    b', c' := b, c;
    c' := c'.(totalAmount := c'.totalAmount - b.total, balance := c'.balance - b.total);
    if items.Some? && |items.value| > 0 {
      var lines, subtotal, gstTotal := ProcessItems(items.value);
      var total := subtotal + gstTotal;
      b' := Retotalled(b', lines, words);
      c' := c'.(totalAmount := c'.totalAmount + total, balance := c'.balance + total);
    }
    b' := b'.(notes := if notes.Some? then notes else b'.notes);
    kind := if Truthy(billType) then ParseBillType(billType.value) else Some(b'.billType);
    if kind.Some? {
      b' := b'.(billType := kind.value);
    }
  }

  /** Every bill of customer `cid`, in store order (`Bill.find({ customerId })`). */
  function BillsOf(bills: seq<Bill>, cid: nat): seq<Bill>
  {
    Filter(bills, IsBillOf(cid))
  }

  /** Every payment of customer `cid`, in store order. */
  function PaymentsOf(payments: seq<Payment>, cid: nat): seq<Payment>
  {
    Filter(payments, (p: Payment) => p.customerId == cid)
  }

  /** `Bill.countDocuments({ customerId }) > 0` holds exactly when some stored
      bill names the customer. */
  lemma {:induction false} BillCountPositive(bills: seq<Bill>, cid: nat)
    ensures BillCount(bills, cid) > 0 <==> exists k :: 0 <= k < |bills| && bills[k].customerId == cid
  {
    if bills != [] {
      var init := bills[..|bills| - 1];
      BillCountPositive(init, cid);
      assert forall k :: 0 <= k < |init| ==> init[k] == bills[k];
    }
  }


  /** What `DELETE /bills/:id` does to the customers: the bill's customer,
      looked up by id alone, loses the bill when it still exists. */
  function AfterBillRemoved(cs: seq<Customer>, b: Bill): (r: seq<Customer>)
    ensures |r| == |cs|
    ensures CustomerById(cs, b.customerId).None? ==> r == cs
    ensures CustomerById(cs, b.customerId).Some? ==>
              var ci := CustomerById(cs, b.customerId).value;
              r == cs[ci := WithoutBill(cs[ci], b.total)]
  {
    match CustomerById(cs, b.customerId)
    case None => cs
    case Some(ci) => cs[ci := WithoutBill(cs[ci], b.total)]
  }

  /** What `DELETE /payments/:id` does to the customers. */
  function AfterPaymentRemoved(cs: seq<Customer>, p: Payment): (r: seq<Customer>)
    ensures |r| == |cs|
    ensures CustomerById(cs, p.customerId).None? ==> r == cs
    ensures CustomerById(cs, p.customerId).Some? ==>
              var ci := CustomerById(cs, p.customerId).value;
              r == cs[ci := WithoutPayment(cs[ci], p.amount)]
  {
    match CustomerById(cs, p.customerId)
    case None => cs
    case Some(ci) => cs[ci := WithoutPayment(cs[ci], p.amount)]
  }

  predicate DistinctIds(cs: seq<Customer>)
  {
    forall i, j :: 0 <= i < j < |cs| ==> cs[i].id != cs[j].id
  }

  /** Every customer has an id below `n`, passes its schema and is balanced,
      and no two customers share an id. */
  predicate CustomersValid(cs: seq<Customer>, n: nat)
  {
    && (forall k :: 0 <= k < |cs| ==> cs[k].id < n && ValidCustomer(cs[k]) && Balanced(cs[k]))
    && DistinctIds(cs)
  }

  /** Every bill has an id and a customer id below `n` and passes its schema,
      and bill numbers are unique over the whole collection. */
  predicate BillsValid(bs: seq<Bill>, n: nat)
  {
    && (forall k :: 0 <= k < |bs| ==> bs[k].id < n && bs[k].customerId < n && ValidBill(bs[k]))
    && UniqueBillNumbers(bs)
  }

  predicate PaymentsValid(ps: seq<Payment>, n: nat)
  {
    forall k :: 0 <= k < |ps| ==> ps[k].id < n && ps[k].customerId < n && ValidPayment(ps[k])
  }

  /** Every customer's aggregates agree with the stored bills and payments. */
  predicate LedgeredOver(cs: seq<Customer>, bs: seq<Bill>, ps: seq<Payment>)
  {
    forall k :: 0 <= k < |cs| ==> Consistent(cs[k], bs, ps)
  }

  lemma CustomersValidAppend(cs: seq<Customer>, n: nat, c: Customer)
    requires CustomersValid(cs, n) && c.id == n && ValidCustomer(c) && Balanced(c)
    ensures CustomersValid(cs + [c], n + 1)
  {
  }

  /** A customer consistent with the stored records joins without disturbing
      the others. */
  lemma LedgeredAddCustomer(cs: seq<Customer>, bs: seq<Bill>, ps: seq<Payment>, c: Customer)
    requires LedgeredOver(cs, bs, ps) && Consistent(c, bs, ps)
    ensures LedgeredOver(cs + [c], bs, ps)
  {
    assert forall k :: 0 <= k < |cs| ==> (cs + [c])[k] == cs[k];
  }

  lemma CustomersValidSet(cs: seq<Customer>, n: nat, i: nat, c: Customer)
    requires CustomersValid(cs, n) && i < |cs|
    requires c.id == cs[i].id && ValidCustomer(c) && Balanced(c)
    ensures CustomersValid(cs[i := c], n)
  {
  }

  lemma CustomersValidRemove(cs: seq<Customer>, n: nat, i: nat)
    requires CustomersValid(cs, n) && i < |cs|
    ensures CustomersValid(RemoveAt(cs, i), n)
  {
    var r := RemoveAt(cs, i);
    forall a, b | 0 <= a < b < |r|
      ensures r[a].id != r[b].id
    {
      var a' := if a < i then a else a + 1;
      var b' := if b < i then b else b + 1;
      assert r[a] == cs[a'] && r[b] == cs[b'];
    }
  }

  lemma BillsValidSet(bs: seq<Bill>, n: nat, i: nat, b: Bill)
    requires BillsValid(bs, n) && i < |bs|
    requires b.id == bs[i].id && b.customerId == bs[i].customerId && b.billNumber == bs[i].billNumber
    requires ValidBill(b)
    ensures BillsValid(bs[i := b], n)
  {
    var r := bs[i := b];
    forall x, y | 0 <= x < y < |r|
      ensures r[x].billNumber != r[y].billNumber
    {
      assert r[x].billNumber == bs[x].billNumber && r[y].billNumber == bs[y].billNumber;
    }
  }

  lemma BillsValidRemove(bs: seq<Bill>, n: nat, i: nat)
    requires BillsValid(bs, n) && i < |bs|
    ensures BillsValid(RemoveAt(bs, i), n)
  {
    var r := RemoveAt(bs, i);
    forall x, y | 0 <= x < y < |r|
      ensures r[x].billNumber != r[y].billNumber
    {
      var x' := if x < i then x else x + 1;
      var y' := if y < i then y else y + 1;
      assert r[x] == bs[x'] && r[y] == bs[y'];
    }
  }

  lemma PaymentsValidRemove(ps: seq<Payment>, n: nat, i: nat)
    requires PaymentsValid(ps, n) && i < |ps|
    ensures PaymentsValid(RemoveAt(ps, i), n)
  {
  }

  /** Storing bill `b` for the customer at `i` and applying `WithBill` to that
      customer keeps every customer consistent. */
  lemma LedgeredAddBill(cs: seq<Customer>, bs: seq<Bill>, ps: seq<Payment>, i: nat, b: Bill)
    requires DistinctIds(cs) && LedgeredOver(cs, bs, ps)
    requires i < |cs| && cs[i].id == b.customerId
    ensures LedgeredOver(cs[i := WithBill(cs[i], b.total)], bs + [b], ps)
  {
    var r := cs[i := WithBill(cs[i], b.total)];
    forall k | 0 <= k < |r|
      ensures Consistent(r[k], bs + [b], ps)
    {
      AddBillConsistent(cs[k], bs, ps, b);
      assert k != i ==> cs[k].id != b.customerId;
    }
  }

  /** Removing the stored bill at `i` and reverting its customer, when that
      customer exists, keeps every customer consistent. */
  lemma LedgeredRemoveBill(cs: seq<Customer>, bs: seq<Bill>, ps: seq<Payment>, i: nat)
    requires DistinctIds(cs) && LedgeredOver(cs, bs, ps) && i < |bs|
    ensures LedgeredOver(AfterBillRemoved(cs, bs[i]), RemoveAt(bs, i), ps)
  {
    var r := AfterBillRemoved(cs, bs[i]);
    var ci := CustomerById(cs, bs[i].customerId);
    forall k | 0 <= k < |r|
      ensures Consistent(r[k], RemoveAt(bs, i), ps)
    {
      RemoveBillConsistent(cs[k], bs, ps, i);
      if ci.Some? && k != ci.value {
        assert cs[k].id != bs[i].customerId;
      }
    }
  }

  /** Replacing the stored bill at `i` by one of the same customer and
      re-totalling that customer keeps every customer consistent. */
  lemma LedgeredReplaceBill(cs: seq<Customer>, bs: seq<Bill>, ps: seq<Payment>, i: nat, b: Bill)
    requires DistinctIds(cs) && LedgeredOver(cs, bs, ps) && i < |bs|
    requires b.customerId == bs[i].customerId && CustomerById(cs, b.customerId).Some?
    ensures var ci := CustomerById(cs, b.customerId).value;
            LedgeredOver(cs[ci := Rebilled(cs[ci], bs[i].total, b.total)], bs[i := b], ps)
  {
    var ci := CustomerById(cs, b.customerId).value;
    var r := cs[ci := Rebilled(cs[ci], bs[i].total, b.total)];
    forall k | 0 <= k < |r|
      ensures Consistent(r[k], bs[i := b], ps)
    {
      ReplaceBillConsistent(cs[k], bs, ps, i, b);
      assert k != ci ==> cs[k].id != b.customerId;
    }
  }

  /** Storing payment `p` for the customer at `i` and applying `WithPayment`
      keeps every customer consistent. */
  lemma LedgeredAddPayment(cs: seq<Customer>, bs: seq<Bill>, ps: seq<Payment>, i: nat, p: Payment)
    requires DistinctIds(cs) && LedgeredOver(cs, bs, ps)
    requires i < |cs| && cs[i].id == p.customerId
    ensures LedgeredOver(cs[i := WithPayment(cs[i], p.amount)], bs, ps + [p])
  {
    var r := cs[i := WithPayment(cs[i], p.amount)];
    forall k | 0 <= k < |r|
      ensures Consistent(r[k], bs, ps + [p])
    {
      AddPaymentConsistent(cs[k], bs, ps, p);
      assert k != i ==> cs[k].id != p.customerId;
    }
  }

  /** Removing the stored payment at `i` and reverting its customer, when that
      customer exists, keeps every customer consistent. */
  lemma LedgeredRemovePayment(cs: seq<Customer>, bs: seq<Bill>, ps: seq<Payment>, i: nat)
    requires DistinctIds(cs) && LedgeredOver(cs, bs, ps) && i < |ps|
    ensures LedgeredOver(AfterPaymentRemoved(cs, ps[i]), bs, RemoveAt(ps, i))
  {
    var r := AfterPaymentRemoved(cs, ps[i]);
    var ci := CustomerById(cs, ps[i].customerId);
    forall k | 0 <= k < |r|
      ensures Consistent(r[k], bs, RemoveAt(ps, i))
    {
      RemovePaymentConsistent(cs[k], bs, ps, i);
      if ci.Some? && k != ci.value {
        assert cs[k].id != ps[i].customerId;
      }
    }
  }

  class Store {
    var customers: seq<Customer>
    var bills: seq<Bill>
    var payments: seq<Payment>
    var nextId: nat

    /** Ids are fresh below `nextId`, customer ids are distinct, bill numbers
        are unique, every record passes its schema, and every customer keeps
        `balance == totalAmount - totalPaid`. */
    ghost predicate Valid()
      reads this
    {
      CustomersValid(customers, nextId) && BillsValid(bills, nextId) && PaymentsValid(payments, nextId)
    }

    /** Every customer's aggregates agree with the stored bills and payments. */
    ghost predicate Ledgered()
      reads this
    {
      LedgeredOver(customers, bills, payments)
    }

    constructor ()
      ensures Valid() && Ledgered()
      ensures customers == [] && bills == [] && payments == [] && nextId == 0
    {
      customers, bills, payments, nextId := [], [], [], 0;
    }

    /** POST /customers. */
    method CreateCustomer(
      u: nat, name: Option<string>, mobile: Option<string>, countryCode: Option<string>,
      address: Option<string>, gstNumber: Option<string>, companyId: Option<nat>) returns (r: Status)
      requires Valid()
      modifies this
      ensures Valid() && (old(Ledgered()) ==> Ledgered())
      ensures r.BadRequest? || r.Created?
      ensures r.BadRequest? <==> !Truthy(name) || !Truthy(mobile) || MobileTaken(old(customers), u, mobile.value)
      ensures r.Created? ==>
                && r.id == old(nextId)
                && customers == old(customers) + [NewCustomer(old(nextId), name.value, IfTruthy(countryCode, DefaultCountryCode),
                                                              mobile.value, address, gstNumber, companyId, u)]
      ensures r.BadRequest? ==> customers == old(customers)
      ensures bills == old(bills) && payments == old(payments)
    {
      if !Truthy(name) || !Truthy(mobile) {
        return BadRequest;
      }
      if exists k :: 0 <= k < |customers| && customers[k].userId == u && customers[k].mobile == mobile.value {
        return BadRequest;
      }
      var c := NewCustomer(nextId, name.value, IfTruthy(countryCode, "+91"), mobile.value, address, gstNumber, companyId, u);
      NewCustomerConsistent(c, bills, payments);
      if Ledgered() {
        LedgeredAddCustomer(customers, bills, payments, c);
      }
      CustomersValidAppend(customers, nextId, c);
      customers := customers + [c];
      r := Created(nextId);
      nextId := nextId + 1;
    }

    /** PUT /customers/:id: contact fields only; the aggregates never move. */
    method UpdateCustomer(
      u: nat, id: nat, name: Option<string>, mobile: Option<string>, countryCode: Option<string>,
      address: Option<string>, gstNumber: Option<string>) returns (r: Status)
      requires Valid()
      modifies this
      ensures Valid() && (old(Ledgered()) ==> Ledgered())
      ensures r.Ok? || r.NotFound?
      ensures r.NotFound? <==> OwnedCustomer(old(customers), id, u).None?
      ensures r.Ok? ==> var i := OwnedCustomer(old(customers), id, u).value;
                        customers == old(customers)[i := PatchContact(old(customers)[i], name, mobile, countryCode, address, gstNumber)]
      ensures r.NotFound? ==> customers == old(customers)
      ensures bills == old(bills) && payments == old(payments) && nextId == old(nextId)
    {
      var i := OwnedCustomer(customers, id, u);
      if i.None? {
        return NotFound;
      }
      var c := PatchContact(customers[i.value], name, mobile, countryCode, address, gstNumber);
      CustomersValidSet(customers, nextId, i.value, c);
      customers := customers[i.value := c];
      r := Ok;
    }

    /** DELETE /customers/:id: refused while any bill names the customer;
      payments are not looked at. */
    method DeleteCustomer(u: nat, id: nat) returns (r: Status)
      requires Valid()
      modifies this
      ensures Valid() && (old(Ledgered()) ==> Ledgered())
      ensures r.Ok? || r.NotFound? || r.BadRequest?
      ensures r.NotFound? <==> OwnedCustomer(old(customers), id, u).None?
      ensures r.BadRequest? <==> OwnedCustomer(old(customers), id, u).Some?
                                 && exists k :: 0 <= k < |old(bills)| && old(bills)[k].customerId == id
      ensures r.Ok? ==> customers == RemoveAt(old(customers), OwnedCustomer(old(customers), id, u).value)
      ensures !r.Ok? ==> customers == old(customers)
      ensures bills == old(bills) && payments == old(payments) && nextId == old(nextId)
    {
      var i := OwnedCustomer(customers, id, u);
      if i.None? {
        return NotFound;
      }
      BillCountPositive(bills, id);
      if BillCount(bills, id) > 0 {
        return BadRequest;
      }
      CustomersValidRemove(customers, nextId, i.value);
      customers := RemoveAt(customers, i.value);
      r := Ok;
    }

    /** GET /customers/:id/ledger. */
    method GetLedger(u: nat, id: nat) returns (r: Option<View>)
      ensures r.None? <==> OwnedCustomer(customers, id, u).None?
      ensures r.Some? ==> r.value == LedgerView(customers[OwnedCustomer(customers, id, u).value],
                                                BillsOf(bills, id), PaymentsOf(payments, id))
    {
      var i := OwnedCustomer(customers, id, u);
      if i.None? {
        return None;
      }
      r := Some(LedgerView(customers[i.value], BillsOf(bills, id), PaymentsOf(payments, id)));
    }

    /** `bill.save()` of a new bill followed by `customer.save()`. */
    method InsertBillAndSaveCustomer(b: Bill, ci: nat, c: Customer)
      requires Valid() && ci < |customers|
      requires b.id == nextId && b.customerId == customers[ci].id
      requires ValidBill(b) && !BillNumberTaken(bills, b.billNumber)
      requires c.id == customers[ci].id && ValidCustomer(c) && Balanced(c)
      modifies this
      ensures Valid()
      ensures bills == old(bills) + [b] && customers == old(customers)[ci := c]
      ensures payments == old(payments) && nextId == old(nextId) + 1
    {
      UniqueAfterAppend(bills, b);
      CustomersValidSet(customers, nextId + 1, ci, c);
      bills := bills + [b];
      customers := customers[ci := c];
      nextId := nextId + 1;
    }

    /** `payment.save()` of a new payment followed by `customer.save()`. */
    method InsertPaymentAndSaveCustomer(p: Payment, ci: nat, c: Customer)
      requires Valid() && ci < |customers|
      requires p.id == nextId && p.customerId == customers[ci].id && ValidPayment(p)
      requires c.id == customers[ci].id && ValidCustomer(c) && Balanced(c)
      modifies this
      ensures Valid()
      ensures payments == old(payments) + [p] && customers == old(customers)[ci := c]
      ensures bills == old(bills) && nextId == old(nextId) + 1
    {
      CustomersValidSet(customers, nextId + 1, ci, c);
      payments := payments + [p];
      customers := customers[ci := c];
      nextId := nextId + 1;
    }

    /** POST /bills. */
    method CreateBill(
      u: nat, customerId: Option<nat>, billType: Option<string>, items: Option<seq<ItemInput>>,
      notes: Option<string>, date: Option<int>, companyId: Option<nat>, now: int,
      words: real -> string) returns (r: Status)
      requires Valid()
      modifies this
      ensures Valid() && (old(Ledgered()) ==> Ledgered())
      ensures r.Created? || r.BadRequest? || r.NotFound? || r.SchemaError?
      ensures r.BadRequest? <==> customerId.None? || !HasItems(items)
      ensures r.NotFound? <==> customerId.Some? && HasItems(items)
                               && OwnedCustomer(old(customers), customerId.value, u).None?
      ensures r.SchemaError? || r.Created? ==>
                var i := OwnedCustomer(old(customers), customerId.value, u).value;
                var lines := LineItems(items.value);
                var number := NextBillNumber(LastBillNumber(old(bills), u));
                && (r.SchemaError? <==> BillTypeOrDefault(billType).None?
                                        || !Priced(items.value)
                                        || (exists k :: 0 <= k < |lines| && !ValidItem(lines[k]))
                                        || BillNumberTaken(old(bills), number))
                && (r.Created? ==>
                      var b := NewBill(old(nextId), number, BillTypeOrDefault(billType).value, old(customers)[i],
                                       if date.Some? then date.value else now, lines, notes, companyId, u, words);
                      && r.id == old(nextId)
                      && bills == old(bills) + [b]
                      && customers == old(customers)[i := WithBill(old(customers)[i], b.total)])
      ensures !r.Created? ==> customers == old(customers) && bills == old(bills)
      ensures payments == old(payments)
    {
      if customerId.None? || items.None? || |items.value| == 0 {
        return BadRequest;
      }
      var i := OwnedCustomer(customers, customerId.value, u);
      if i.None? {
        return NotFound;
      }
      var c := customers[i.value];
      var lines, subtotal, gstTotal := ProcessItems(items.value);
      var total := subtotal + gstTotal;
      var previousBalance := c.balance;
      var closingBalance := previousBalance + total;
      var billNumber := NextBillNumber(LastBillNumber(bills, u));
      var kind := BillTypeOrDefault(billType);
      if kind.None? {
        return SchemaError;
      }
      var bill := NewBill(nextId, billNumber, kind.value, c, if date.Some? then date.value else now,
                          lines, notes, companyId, u, words);
      NextBillNumberNonEmpty(LastBillNumber(bills, u));
      if !Priced(items.value) || !ValidBill(bill) || BillNumberTaken(bills, billNumber) {
        return SchemaError;
      }
      if Ledgered() {
        LedgeredAddBill(customers, bills, payments, i.value, bill);
      }
      c := c.(totalBills := c.totalBills + 1, totalAmount := c.totalAmount + total, balance := closingBalance);
      assert c == WithBill(customers[i.value], bill.total);
      r := Created(nextId);
      InsertBillAndSaveCustomer(bill, i.value, c);
    }

    /** `bill.save()` followed by `customer.save()` for a bill already in
      the collection, once the bill has passed its schema. */
    method SaveBillAndCustomer(bi: nat, b: Bill, ci: nat, c: Customer)
      requires Valid() && bi < |bills| && ci < |customers|
      requires b.id == bills[bi].id && b.customerId == bills[bi].customerId && b.billNumber == bills[bi].billNumber
      requires ValidBill(b)
      requires c.id == customers[ci].id && ValidCustomer(c) && Balanced(c)
      modifies this
      ensures Valid()
      ensures bills == old(bills)[bi := b] && customers == old(customers)[ci := c]
      ensures payments == old(payments) && nextId == old(nextId)
    {
      BillsValidSet(bills, nextId, bi, b);
      CustomersValidSet(customers, nextId, ci, c);
      bills := bills[bi := b];
      customers := customers[ci := c];
    }

    /** PUT /bills/:id, with the revert of the old total made only when new
      items replace it. Compare `UpdateBillAsWritten`. */
    method UpdateBill(
      u: nat, id: nat, items: Option<seq<ItemInput>>, notes: Option<string>, billType: Option<string>,
      words: real -> string) returns (r: Status)
      requires Valid()
      modifies this
      ensures Valid() && (old(Ledgered()) ==> Ledgered())
      ensures r.Ok? || r.NotFound? || r.SchemaError?
      ensures r.NotFound? <==> OwnedBill(old(bills), id, u).None?
                               || CustomerById(old(customers), old(bills)[OwnedBill(old(bills), id, u).value].customerId).None?
      ensures !r.NotFound? ==>
                var bi := OwnedBill(old(bills), id, u).value;
                var b := old(bills)[bi];
                var ci := CustomerById(old(customers), b.customerId).value;
                var kind := PutBillType(b, billType);
                && (r.SchemaError? <==> kind.None? || Unpriced(items)
                                        || !ValidBill(RevisedBill(b, items, notes, kind.value, words)))
                && (r.Ok? ==>
                      var b' := RevisedBill(b, items, notes, kind.value, words);
                      && bills == old(bills)[bi := b']
                      && customers == old(customers)[ci := Rebilled(old(customers)[ci], b.total, b'.total)])
      ensures !r.Ok? ==> customers == old(customers) && bills == old(bills)
      ensures payments == old(payments) && nextId == old(nextId)
    {
      var bi := OwnedBill(bills, id, u);
      if bi.None? {
        return NotFound;
      }
      var ci := CustomerById(customers, bills[bi.value].customerId);
      if ci.None? {
        return NotFound;
      }
      var kind, b, c := ReviseBill(bills[bi.value], customers[ci.value], items, notes, billType, words);
      if kind.None? || Unpriced(items) || !ValidBill(b) {
        return SchemaError;
      }
      if Ledgered() {
        LedgeredReplaceBill(customers, bills, payments, bi.value, b);
      }
      SaveBillAndCustomer(bi.value, b, ci.value, c);
      r := Ok;
    }

    /** PUT /bills/:id as written: the old total is taken from the customer
      before the items are looked at, and is only put back by new items. */
    method UpdateBillAsWritten(
      u: nat, id: nat, items: Option<seq<ItemInput>>, notes: Option<string>, billType: Option<string>,
      words: real -> string) returns (r: Status)
      requires Valid()
      modifies this
      ensures Valid()
      ensures r.Ok? || r.NotFound? || r.SchemaError?
      ensures r.NotFound? <==> OwnedBill(old(bills), id, u).None?
                               || CustomerById(old(customers), old(bills)[OwnedBill(old(bills), id, u).value].customerId).None?
      ensures !r.NotFound? ==>
                var bi := OwnedBill(old(bills), id, u).value;
                var b := old(bills)[bi];
                var ci := CustomerById(old(customers), b.customerId).value;
                var kind := PutBillType(b, billType);
                && (r.SchemaError? <==> kind.None? || Unpriced(items)
                                        || !ValidBill(RevisedBill(b, items, notes, kind.value, words)))
                && (r.Ok? ==>
                      var b' := RevisedBill(b, items, notes, kind.value, words);
                      && bills == old(bills)[bi := b']
                      && customers == old(customers)[ci := if HasItems(items) then Rebilled(old(customers)[ci], b.total, b'.total)
                                                           else Unbilled(old(customers)[ci], b.total)])
      ensures !r.Ok? ==> customers == old(customers) && bills == old(bills)
      ensures payments == old(payments) && nextId == old(nextId)
    {
      var bi := OwnedBill(bills, id, u);
      if bi.None? {
        return NotFound;
      }
      var ci := CustomerById(customers, bills[bi.value].customerId);
      if ci.None? {
        return NotFound;
      }
      var kind, b, c := ReviseBillAsWritten(bills[bi.value], customers[ci.value], items, notes, billType, words);
      if kind.None? || Unpriced(items) || !ValidBill(b) {
        return SchemaError;
      }
      SaveBillAndCustomer(bi.value, b, ci.value, c);
      r := Ok;
    }

    /** DELETE /bills/:id: the customer is reverted when it still exists; the
      bill goes either way. */
    method DeleteBill(u: nat, id: nat) returns (r: Status)
      requires Valid()
      modifies this
      ensures Valid() && (old(Ledgered()) ==> Ledgered())
      ensures r.Ok? || r.NotFound?
      ensures r.NotFound? <==> OwnedBill(old(bills), id, u).None?
      ensures r.Ok? ==>
                var bi := OwnedBill(old(bills), id, u).value;
                && bills == RemoveAt(old(bills), bi)
                && customers == AfterBillRemoved(old(customers), old(bills)[bi])
      ensures r.NotFound? ==> customers == old(customers) && bills == old(bills)
      ensures payments == old(payments) && nextId == old(nextId)
    {
      var bi := OwnedBill(bills, id, u);
      if bi.None? {
        return NotFound;
      }
      var b := bills[bi.value];
      if Ledgered() {
        LedgeredRemoveBill(customers, bills, payments, bi.value);
      }
      BillsValidRemove(bills, nextId, bi.value);
      var ci := CustomerById(customers, b.customerId);
      if ci.Some? {
        var c := customers[ci.value];
        c := c.(totalBills := c.totalBills - 1, totalAmount := c.totalAmount - b.total, balance := c.balance - b.total);
        assert c == WithoutBill(customers[ci.value], b.total);
        CustomersValidSet(customers, nextId, ci.value, c);
        customers := customers[ci.value := c];
      }
      bills := RemoveAt(bills, bi.value);
      r := Ok;
    }

    /** POST /payments. */
    method CreatePayment(
      u: nat, customerId: Option<nat>, amount: Option<real>, paymentMode: Option<string>,
      paymentDate: Option<int>, referenceNumber: Option<string>, notes: Option<string>,
      companyId: Option<nat>, now: int) returns (r: Status)
      requires Valid()
      modifies this
      ensures Valid() && (old(Ledgered()) ==> Ledgered())
      ensures r.Created? || r.BadRequest? || r.NotFound? || r.SchemaError?
      ensures r.BadRequest? <==> customerId.None? || amount.None? || amount.value <= 0.0
      ensures r.NotFound? <==> customerId.Some? && amount.Some? && amount.value > 0.0
                               && OwnedCustomer(old(customers), customerId.value, u).None?
      ensures r.SchemaError? <==> customerId.Some? && amount.Some? && amount.value > 0.0
                                  && OwnedCustomer(old(customers), customerId.value, u).Some?
                                  && PaymentModeOrDefault(paymentMode).None?
      ensures r.Created? ==>
                var i := OwnedCustomer(old(customers), customerId.value, u).value;
                && r.id == old(nextId)
                && payments == old(payments) + [Payment(old(nextId), customerId.value, amount.value,
                                                        PaymentModeOrDefault(paymentMode).value,
                                                        if paymentDate.Some? then paymentDate.value else now,
                                                        referenceNumber, notes, companyId, u)]
                && customers == old(customers)[i := WithPayment(old(customers)[i], amount.value)]
      ensures !r.Created? ==> customers == old(customers) && payments == old(payments)
      ensures bills == old(bills)
    {
      if customerId.None? || !TruthyNumber(amount) {
        return BadRequest;
      }
      if amount.value <= 0.0 {
        return BadRequest;
      }
      var i := OwnedCustomer(customers, customerId.value, u);
      if i.None? {
        return NotFound;
      }
      var mode := PaymentModeOrDefault(paymentMode);
      if mode.None? {
        return SchemaError;
      }
      var p := Payment(nextId, customerId.value, amount.value, mode.value,
                       if paymentDate.Some? then paymentDate.value else now,
                       referenceNumber, notes, companyId, u);
      if Ledgered() {
        LedgeredAddPayment(customers, bills, payments, i.value, p);
      }
      var c := customers[i.value];
      c := c.(totalPaid := c.totalPaid + amount.value, balance := c.balance - amount.value);
      assert c == WithPayment(customers[i.value], amount.value);
      r := Created(nextId);
      InsertPaymentAndSaveCustomer(p, i.value, c);
    }

    /** DELETE /payments/:id: the customer is reverted when it still exists;
      the payment goes either way. */
    method DeletePayment(u: nat, id: nat) returns (r: Status)
      requires Valid()
      modifies this
      ensures Valid() && (old(Ledgered()) ==> Ledgered())
      ensures r.Ok? || r.NotFound?
      ensures r.NotFound? <==> OwnedPayment(old(payments), id, u).None?
      ensures r.Ok? ==>
                var pi := OwnedPayment(old(payments), id, u).value;
                && payments == RemoveAt(old(payments), pi)
                && customers == AfterPaymentRemoved(old(customers), old(payments)[pi])
      ensures r.NotFound? ==> customers == old(customers) && payments == old(payments)
      ensures bills == old(bills) && nextId == old(nextId)
    {
      var pi := OwnedPayment(payments, id, u);
      if pi.None? {
        return NotFound;
      }
      var p := payments[pi.value];
      if Ledgered() {
        LedgeredRemovePayment(customers, bills, payments, pi.value);
      }
      PaymentsValidRemove(payments, nextId, pi.value);
      var ci := CustomerById(customers, p.customerId);
      if ci.Some? {
        var c := customers[ci.value];
        c := c.(totalPaid := c.totalPaid - p.amount, balance := c.balance + p.amount);
        assert c == WithoutPayment(customers[ci.value], p.amount);
        CustomersValidSet(customers, nextId, ci.value, c);
        customers := customers[ci.value := c];
      }
      payments := RemoveAt(payments, pi.value);
      r := Ok;
    }
  }
}
