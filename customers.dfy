/** The pure parts of `backend/routes/customers.js`: the duplicate-mobile
    test, the partial contact update and the autocomplete search. */
module Customers {
  import opened Common
  import opened CustomerModel

  /** Some customer of tenant `u` already has this mobile number. Customers
      of other tenants never count. */
  predicate MobileTaken(cs: seq<Customer>, u: nat, mobile: string)
  {
    exists k :: 0 <= k < |cs| && cs[k].userId == u && cs[k].mobile == mobile
  }

  /** PUT /customers/:id: `name` and `mobile` change only when truthy,
      `countryCode`, `address` and `gstNumber` whenever they are given. */
  function PatchContact(
    c: Customer, name: Option<string>, mobile: Option<string>, countryCode: Option<string>,
    address: Option<string>, gstNumber: Option<string>): (r: Customer)
    ensures r.id == c.id && r.userId == c.userId && r.companyId == c.companyId
    ensures r.totalBills == c.totalBills && r.totalAmount == c.totalAmount
    ensures r.totalPaid == c.totalPaid && r.balance == c.balance
    ensures r.name == IfTruthy(name, c.name) && r.mobile == IfTruthy(mobile, c.mobile)
    ensures r.countryCode == IfDefined(countryCode, c.countryCode)
    ensures r.address == (if address.Some? then address else c.address)
    ensures r.gstNumber == (if gstNumber.Some? then gstNumber else c.gstNumber)
    ensures ValidCustomer(c) ==> ValidCustomer(r)
  {
    c.(name := IfTruthy(name, c.name),
       mobile := IfTruthy(mobile, c.mobile),
       countryCode := IfDefined(countryCode, c.countryCode),
       address := if address.Some? then address else c.address,
       gstNumber := if gstNumber.Some? then gstNumber else c.gstNumber)
  }

  /** An update naming no field leaves the customer as it was, and sending
      the same update twice has the effect of sending it once. */
  lemma PatchContactIdentityAndIdempotence(
    c: Customer, name: Option<string>, mobile: Option<string>, countryCode: Option<string>,
    address: Option<string>, gstNumber: Option<string>)
    ensures PatchContact(c, None, None, None, None, None) == c
    ensures var once := PatchContact(c, name, mobile, countryCode, address, gstNumber);
            PatchContact(once, name, mobile, countryCode, address, gstNumber) == once
  {
  }

  /** The search match: the query occurs in the name or in the mobile number. */
  predicate Matches(c: Customer, q: string)
  {
    Contains(c.name, q) || Contains(c.mobile, q)
  }

  /** The search filter of tenant `u` for query `q`. */
  function SearchHit(u: nat, q: string): Customer -> bool
  {
    (c: Customer) => c.userId == u && Matches(c, q)
  }

  /** GET /customers/search: nothing for an absent or one-character query;
      otherwise the first ten matching customers of the tenant, so every
      match when there are at most ten. */
  function SearchCustomers(cs: seq<Customer>, u: nat, q: Option<string>): (r: seq<Customer>)
    ensures !Truthy(q) || |q.value| < 2 ==> r == []
    ensures |r| <= 10
    ensures forall x :: x in r ==> x in cs && x.userId == u && Matches(x, q.value)
    ensures Truthy(q) && |q.value| >= 2 ==>
              var n := CountBy(cs, SearchHit(u, q.value));
              && |r| == (if n <= 10 then n else 10)
              && (n <= 10 ==> forall x :: x in cs && x.userId == u && Matches(x, q.value) ==> x in r)
  {
    if !Truthy(q) || |q.value| < 2 then []
    else
      var hits := Filter(cs, SearchHit(u, q.value));
      FilterCount(cs, SearchHit(u, q.value));
      var r := Take(hits, 10);
      assert forall x :: x in r ==> x in hits;
      r
  }
}
