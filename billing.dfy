/** The pure arithmetic of `backend/routes/bills.js`: turning the request's
    items into stored line items and totals, and deriving the next bill number
    from the number of the tenant's most recently created bill. */
module Billing {
  import opened Common
  import opened JsNumber
  import opened BillModel

  /** One element of the request's `items` array; any field may be absent. */
  datatype ItemInput = ItemInput(
    productId: Option<nat>,
    productName: Option<string>,
    quantity: Option<real>,
    unit: Option<string>,
    totalMtr: Option<real>,
    rate: Option<real>,
    gstRate: Option<real>)

  /** Every item gives both `quantity` and `rate`. When one is absent,
      `quantity * rate` is NaN, which the required `quantity`/`rate` and the
      numeric `amount` fields refuse, so such a bill is never stored. */
  predicate Priced(items: seq<ItemInput>)
  {
    forall k :: 0 <= k < |items| ==> items[k].quantity.Some? && items[k].rate.Some?
  }

  /** The stored line for the request item at position `index`: `srNo` counts
      from 1, `amount` is quantity times rate, GST applies only for a truthy
      `gstRate`, and absent `totalMtr`/`gstRate` are stored as 0. An absent
      `quantity` or `rate` stands as 0 here: such a line is never stored
      (see `Priced`). */
  function LineItem(index: nat, it: ItemInput): BillItem
  {
    var quantity, rate := IfDefined(it.quantity, 0.0), IfDefined(it.rate, 0.0);
    var amount := quantity * rate;
    BillItem(
      index + 1, it.productId, it.productName, quantity, it.unit,
      NumberOr(it.totalMtr, 0.0), rate, amount, NumberOr(it.gstRate, 0.0),
      if TruthyNumber(it.gstRate) then amount * it.gstRate.value / 100.0 else 0.0)
  }

  /** `items.map((item, index) => ...)`. */
  function LineItems(items: seq<ItemInput>): seq<BillItem>
  {
    seq(|items|, k requires 0 <= k < |items| => LineItem(k, items[k]))
  }

  /** `subtotal`: the sum of the line amounts. */
  function Subtotal(lines: seq<BillItem>): real
  {
    SumBy(lines, (i: BillItem) => i.amount)
  }

  /** `gstTotal`: the sum of the line GST amounts. */
  function GstTotal(lines: seq<BillItem>): real
  {
    SumBy(lines, (i: BillItem) => i.gstAmount)
  }

  /** What a stored line says about its request item: the GST amount is the
      amount at the stored GST rate, whichever way the rate was given, and a
      line from valid numbers (quantity and rate at least 0) is a valid line
      when its name and unit are present. */
  lemma LineItemMeaning(index: nat, it: ItemInput)
    ensures LineItem(index, it).srNo == index + 1
    ensures it.quantity.Some? && it.rate.Some? ==>
              && LineItem(index, it).quantity == it.quantity.value && LineItem(index, it).rate == it.rate.value
              && LineItem(index, it).amount == it.quantity.value * it.rate.value
    ensures LineItem(index, it).gstAmount == LineItem(index, it).amount * LineItem(index, it).gstRate / 100.0
    ensures it.gstRate.None? ==> LineItem(index, it).gstRate == 0.0 && LineItem(index, it).gstAmount == 0.0
    ensures it.totalMtr.None? ==> LineItem(index, it).totalMtr == 0.0
    ensures it.quantity.Some? && it.rate.Some? && it.quantity.value >= 0.0 && it.rate.value >= 0.0
            && Truthy(it.productName) && Truthy(it.unit) ==>
              ValidItem(LineItem(index, it))
  {
    var quantity, rate := IfDefined(it.quantity, 0.0), IfDefined(it.rate, 0.0);
    if quantity >= 0.0 && rate >= 0.0 {
      assert quantity * rate >= 0.0;
    }
  }

  /** The loop of the POST and PUT handlers: it walks the request items,
      building the stored lines and accumulating `subtotal` and `gstTotal`. */
  method ProcessItems(items: seq<ItemInput>) returns (lines: seq<BillItem>, subtotal: real, gstTotal: real)
    ensures lines == LineItems(items)
    ensures |lines| == |items|
    ensures subtotal == Subtotal(lines) && gstTotal == GstTotal(lines)
  {
    lines, subtotal, gstTotal := [], 0.0, 0.0;
    var index := 0;
    while index < |items|
      invariant 0 <= index <= |items|
      invariant lines == LineItems(items)[..index]
      invariant subtotal == Subtotal(lines) && gstTotal == GstTotal(lines)
    {
      var line := LineItem(index, items[index]);
      SumByAppend(lines, line, (i: BillItem) => i.amount);
      SumByAppend(lines, line, (i: BillItem) => i.gstAmount);
      subtotal := subtotal + line.amount;
      gstTotal := gstTotal + line.gstAmount;
      lines := lines + [line];
      index := index + 1;
    }
    assert LineItems(items)[..index] == LineItems(items);
  }

  /** When every line carries the same GST rate the GST total is that rate
      applied to the subtotal, so the bill total is the subtotal times
      (1 + rate/100). */
  lemma {:induction false} UniformGst(lines: seq<BillItem>, rate: real)
    requires forall k :: 0 <= k < |lines| ==> lines[k].gstAmount == lines[k].amount * rate / 100.0
    ensures GstTotal(lines) == Subtotal(lines) * rate / 100.0
    ensures Subtotal(lines) + GstTotal(lines) == Subtotal(lines) * (1.0 + rate / 100.0)
  {
    if lines != [] {
      var init, last := lines[..|lines| - 1], lines[|lines| - 1];
      UniformGst(init, rate);
      assert lines == init + [last];
      SumByAppend(init, last, (i: BillItem) => i.amount);
      SumByAppend(init, last, (i: BillItem) => i.gstAmount);
      Distributes(Subtotal(init), last.amount, rate);
    }
    Factors(Subtotal(lines), rate);
  }

  /** Taking a rate of a sum is summing the rates of the parts: the step of
      `UniformGst` that adds one more line's GST to the running total. */
  lemma Distributes(a: real, b: real, rate: real)
    ensures (a + b) * rate / 100.0 == a * rate / 100.0 + b * rate / 100.0
  {
  }

  /** A subtotal plus its GST is the subtotal scaled by `1 + rate / 100`:
      the closing step of `UniformGst`. */
  lemma Factors(s: real, rate: real)
    ensures s + s * rate / 100.0 == s * (1.0 + rate / 100.0)
  {
  }

  /** Lines of non-negative amount add up to a non-negative subtotal. */
  lemma {:induction false} SubtotalNonNegative(lines: seq<BillItem>)
    requires forall k :: 0 <= k < |lines| ==> ValidItem(lines[k])
    ensures Subtotal(lines) >= 0.0
  {
    if lines != [] {
      var init := lines[..|lines| - 1];
      SubtotalNonNegative(init);
      assert lines == init + [lines[|lines| - 1]];
      SumByAppend(init, lines[|lines| - 1], (i: BillItem) => i.amount);
    }
  }

  /** Two metres of cloth at 100 with 18% GST: amount 200, GST 36, total 236. */
  lemma SingleItemExample()
    ensures var lines := LineItems([ItemInput(None, Some("Cloth"), Some(2.0), Some("Mtr"), None, Some(100.0), Some(18.0))]);
            && lines[0].amount == 200.0 && lines[0].gstAmount == 36.0
            && Subtotal(lines) == 200.0 && GstTotal(lines) == 36.0
            && Subtotal(lines) + GstTotal(lines) == 236.0
  {
    var lines := LineItems([ItemInput(None, Some("Cloth"), Some(2.0), Some("Mtr"), None, Some(100.0), Some(18.0))]);
    SumByAppend([], lines[0], (i: BillItem) => i.amount);
    SumByAppend([], lines[0], (i: BillItem) => i.gstAmount);
    assert lines == [] + [lines[0]];
  }

  /** `lastNumber + 1` on a Number that may be NaN. */
  function Increment(x: int_or_nan): (r: int_or_nan)
    ensures r.None? <==> x.None?
    ensures x.Some? ==> r.value > x.value
  {
    match x
    case None => None
    case Some(i) => Some(i + 1)
  }

  /** `getNextBillNumber`, given the `billNumber` of the tenant's most recently
      created bill (`None` when the tenant has no bill). */
  function NextBillNumber(last: Option<string>): (r: string)
    ensures !Truthy(last) ==> r == "1"
    ensures Truthy(last) ==> (r == "NaN" <==> ParseInt(last.value).None?)
  {
    if !Truthy(last) then "1"
    else NumberToString(Increment(ParseInt(last.value)))
  }

  /** After a bill numbered `String(k)` the next bill is numbered `String(k + 1)`:
      numbering is numeric, so "9" is followed by "10". */
  lemma NextAfterShown(k: int)
    ensures NextBillNumber(Some(ShowInt(k))) == ShowInt(k + 1)
  {
    ParseShowInt(k);
  }

  lemma NineThenTen()
    ensures NextBillNumber(Some("9")) == "10"
  {
    NextAfterShown(9);
    assert ShowInt(9) == "9";
    assert ShowInt(10) == "10";
  }

  /** A number that starts with neither whitespace, a sign nor a digit parses
      to NaN, so the next bill is numbered "NaN"; and "NaN" is followed by
      "NaN" again. */
  lemma NextAfterNonNumeric(last: string)
    requires last != [] && !IsJsSpace(last[0]) && last[0] != '-' && last[0] != '+'
    requires !('0' <= last[0] <= '9')
    ensures NextBillNumber(Some(last)) == "NaN"
  {
    assert TrimStart(last) == last;
    assert DigitValue(last[0], 10).None?;
    assert DigitRun(last, 10) == 0;
  }

  lemma NaNIsSticky()
    ensures NextBillNumber(Some("NaN")) == "NaN"
  {
    NextAfterNonNumeric("NaN");
  }
}
