/** Two request sequences a client can send to the ledger engine, and what
    they add up to: deleting the bill or payment just created puts the
    customers and the collection back as they were. */
module Scenarios {
  import opened Common
  import opened BillModel
  import opened CustomerModel
  import opened PaymentModel
  import opened Billing
  import opened Accounts
  import opened Engine

  /** A customer found by tenant and id is the one `findById` finds. */
  lemma OwnedIsById(cs: seq<Customer>, id: nat, u: nat)
    requires DistinctIds(cs) && OwnedCustomer(cs, id, u).Some?
    ensures CustomerById(cs, id) == OwnedCustomer(cs, id, u)
  {
  }

  /** The bill just appended, whose id is above every stored one, is the one
      its owner's lookup by id finds. */
  lemma FreshBillFound(bs: seq<Bill>, b: Bill, u: nat)
    requires forall k :: 0 <= k < |bs| ==> bs[k].id < b.id
    requires b.userId == u
    ensures OwnedBill(bs + [b], b.id, u) == Some(|bs|)
  {
    var s := bs + [b];
    assert s[|bs|] == b;
    assert forall k :: 0 <= k < |bs| ==> s[k] == bs[k];
  }

  lemma FreshPaymentFound(ps: seq<Payment>, p: Payment, u: nat)
    requires forall k :: 0 <= k < |ps| ==> ps[k].id < p.id
    requires p.userId == u
    ensures OwnedPayment(ps + [p], p.id, u) == Some(|ps|)
  {
    var s := ps + [p];
    assert s[|ps|] == p;
    assert forall k :: 0 <= k < |ps| ==> s[k] == ps[k];
  }

  /** Removing the bill that `WithBill` added to customer `i` restores the
      customers and the bills exactly. */
  lemma BillRoundTrip(cs: seq<Customer>, bs: seq<Bill>, i: nat, b: Bill)
    requires DistinctIds(cs) && i < |cs| && cs[i].id == b.customerId
    ensures AfterBillRemoved(cs[i := WithBill(cs[i], b.total)], b) == cs
    ensures RemoveAt(bs + [b], |bs|) == bs
  {
    var cs' := cs[i := WithBill(cs[i], b.total)];
    assert forall k :: 0 <= k < |cs| ==> cs'[k].id == cs[k].id;
    assert CustomerById(cs', b.customerId) == CustomerById(cs, b.customerId);
    assert CustomerById(cs, b.customerId) == Some(i);
    Inverses(cs[i], b.total, 0.0);
  }

  /** Removing the payment that `WithPayment` added to customer `i` restores
      the customers and the payments exactly. */
  lemma PaymentRoundTrip(cs: seq<Customer>, ps: seq<Payment>, i: nat, p: Payment)
    requires DistinctIds(cs) && i < |cs| && cs[i].id == p.customerId
    ensures AfterPaymentRemoved(cs[i := WithPayment(cs[i], p.amount)], p) == cs
    ensures RemoveAt(ps + [p], |ps|) == ps
  {
    var cs' := cs[i := WithPayment(cs[i], p.amount)];
    assert forall k :: 0 <= k < |cs| ==> cs'[k].id == cs[k].id;
    assert CustomerById(cs', p.customerId) == CustomerById(cs, p.customerId);
    assert CustomerById(cs, p.customerId) == Some(i);
    Inverses(cs[i], 0.0, p.amount);
  }

  /** POST /bills then DELETE /bills/:id of the new bill. */
  method CreateThenDeleteBill(
    s: Store, u: nat, customerId: nat, billType: Option<string>, items: seq<ItemInput>,
    notes: Option<string>, date: Option<int>, now: int, words: real -> string) returns (created: Status, deleted: Status)
    requires s.Valid()
    modifies s
    ensures s.Valid() && (old(s.Ledgered()) ==> s.Ledgered())
    ensures created.Created? ==> deleted.Ok? && s.customers == old(s.customers) && s.bills == old(s.bills)
  {
    created := s.CreateBill(u, Some(customerId), billType, Some(items), notes, date, None, now, words);
    if !created.Created? {
      return created, created;
    }
    ghost var bs0, cs0 := old(s.bills), old(s.customers);
    ghost var i := OwnedCustomer(cs0, customerId, u).value;
    ghost var b := s.bills[|bs0|];
    FreshBillFound(bs0, b, u);
    BillRoundTrip(cs0, bs0, i, b);
    deleted := s.DeleteBill(u, created.id);
  }

  /** POST /payments then DELETE /payments/:id of the new payment. */
  method CreateThenDeletePayment(
    s: Store, u: nat, customerId: nat, amount: real, paymentMode: Option<string>,
    paymentDate: Option<int>, now: int) returns (created: Status, deleted: Status)
    requires s.Valid()
    modifies s
    ensures s.Valid() && (old(s.Ledgered()) ==> s.Ledgered())
    ensures created.Created? ==> deleted.Ok? && s.customers == old(s.customers) && s.payments == old(s.payments)
  {
    created := s.CreatePayment(u, Some(customerId), Some(amount), paymentMode, paymentDate, None, None, None, now);
    if !created.Created? {
      return created, created;
    }
    ghost var ps0, cs0 := old(s.payments), old(s.customers);
    ghost var i := OwnedCustomer(cs0, customerId, u).value;
    ghost var p := s.payments[|ps0|];
    FreshPaymentFound(ps0, p, u);
    PaymentRoundTrip(cs0, ps0, i, p);
    deleted := s.DeletePayment(u, created.id);
  }
}
