/**
  `SaleController::preview`: pricing of a cart without touching storage.
  Each line is priced with three successive 2-decimal roundings; the
  summary rounds the sums of the rounded line amounts.
 */
module Pricing {
  import opened Wrappers
  import opened Money
  import opened Schema

  /** The rate used when the request gives none: `$data['taxes'] ?? 0.18`. */
  const DEFAULT_TAX_RATE: real := 0.18

  /** A `taxes` entry of a JSON request: missing, null, or a number. */
  datatype TaxField = Absent | Null | Rate(value: real)

  /** A requested line: `{salable_product_id, quantity, taxes?}`. */
  datatype LineInput = LineInput(salableId: int, quantity: int, taxes: TaxField)

  /** The request-wide rate: absent and null both fall back to 0.18. */
  function DefaultRate(t: TaxField): (r: real)
    ensures r == (if t.Rate? then t.value else DEFAULT_TAX_RATE)
  {
    match t
    case Rate(v) => v
    case _ => DEFAULT_TAX_RATE
  }

  /**
    The rate of one line: a line that carries the key uses it, and
    `(float) null` is 0; a line without the key uses the default.
   */
  function LineRate(t: TaxField, default: real): (r: real)
    ensures t.Absent? ==> r == default
    ensures t.Null? ==> r == 0.0
    ensures t.Rate? ==> r == t.value
  {
    match t
    case Absent => default
    case Null => 0.0
    case Rate(v) => v
  }

  /** `nullable|numeric|min:0` */
  predicate ValidTaxField(t: TaxField) {
    t.Rate? ==> t.value >= 0.0
  }

  /** The validation rules shared by preview and checkout on the `items` array. */
  predicate ValidLines(t: Tables, lines: seq<LineInput>) {
    && |lines| >= 1
    && (forall i :: 0 <= i < |lines| ==> lines[i].salableId in t.salables)
    && (forall i :: 0 <= i < |lines| ==> lines[i].quantity >= 1)
    && (forall i :: 0 <= i < |lines| ==> ValidTaxField(lines[i].taxes))
  }

  predicate SalablesHaveProducts(t: Tables) {
    forall s :: s in t.salables ==> t.salables[s].productId in t.products
  }

  datatype LinePrice = LinePrice(subtotal: real, taxAmount: real, total: real)

  /** The pricing of one line: round(price·qty), round(subtotal·rate), round(subtotal + tax). */
  function PriceLine(unitPrice: real, quantity: int, rate: real): LinePrice {
    var subtotal := R2(Mul(unitPrice, quantity as real));
    var tax := R2(Mul(subtotal, rate));
    LinePrice(subtotal, tax, R2(subtotal + tax))
  }

  datatype ProductInfo = ProductInfo(id: int, name: string, description: string, stock: nat)

  datatype PreviewLine = PreviewLine(
    salableId: int, quantity: int, taxRate: real, unitPrice: real,
    price: LinePrice, product: ProductInfo)

  datatype Summary = Summary(subtotal: real, taxes: real, total: real)

  datatype PreviewResponse = PreviewResponse(lines: seq<PreviewLine>, summary: Summary)

  /** The output line for one requested line. */
  function PreviewLineOf(t: Tables, line: LineInput, default: real): PreviewLine
    requires SalablesHaveProducts(t) && line.salableId in t.salables
  {
    var s := t.salables[line.salableId];
    var p := t.products[s.productId];
    var rate := LineRate(line.taxes, default);
    PreviewLine(line.salableId, line.quantity, rate, Cents(s.priceCents),
                PriceLine(Cents(s.priceCents), line.quantity, rate),
                ProductInfo(s.productId, p.name, p.description, p.stock))
  }

  /** The `map` over the items: any unknown salable product aborts the whole call. */
  function PreviewLines(t: Tables, lines: seq<LineInput>, default: real): (r: Result<seq<PreviewLine>, SaleError>)
    requires SalablesHaveProducts(t)
    ensures r.Ok? <==> forall i :: 0 <= i < |lines| ==> lines[i].salableId in t.salables
    ensures r.Err? ==> r.error == SalableNotFound
    ensures r.Ok? ==> |r.value| == |lines|
    ensures r.Ok? ==> forall i :: 0 <= i < |lines| ==> r.value[i] == PreviewLineOf(t, lines[i], default)
  {
    if lines == [] then Ok([])
    else if lines[0].salableId !in t.salables then Err(SalableNotFound)
    else
      match PreviewLines(t, lines[1..], default)
      case Err(e) =>
        assert forall i :: 1 <= i < |lines| ==> lines[i] == lines[1..][i - 1];
        Err(e)
      case Ok(rest) =>
        assert forall i :: 1 <= i < |lines| ==> lines[i] == lines[1..][i - 1];
        Ok([PreviewLineOf(t, lines[0], default)] + rest)
  }

  function SumSubtotals(ls: seq<PreviewLine>): real {
    if ls == [] then 0.0 else ls[0].price.subtotal + SumSubtotals(ls[1..])
  }

  function SumTaxes(ls: seq<PreviewLine>): real {
    if ls == [] then 0.0 else ls[0].price.taxAmount + SumTaxes(ls[1..])
  }

  function SumTotals(ls: seq<PreviewLine>): real {
    if ls == [] then 0.0 else ls[0].price.total + SumTotals(ls[1..])
  }

  /** `POST /sales/preview`: validation, then the priced lines and their summary. */
  function Preview(t: Tables, lines: seq<LineInput>, taxes: TaxField): (r: Result<PreviewResponse, SaleError>)
    requires SalablesHaveProducts(t)
    ensures r.Ok? <==> ValidLines(t, lines) && ValidTaxField(taxes)
    ensures (exists i :: 0 <= i < |lines| && lines[i].salableId !in t.salables) ==> r.Err?
    ensures r.Ok? ==> |r.value.lines| == |lines|
    ensures r.Ok? ==> forall i :: 0 <= i < |lines| ==>
      r.value.lines[i] == PreviewLineOf(t, lines[i], DefaultRate(taxes))
  {
    if !(ValidLines(t, lines) && ValidTaxField(taxes)) then Err(ValidationFailed)
    else
      var ls := PreviewLines(t, lines, DefaultRate(taxes)).value;
      Ok(PreviewResponse(ls, Summary(R2(SumSubtotals(ls)), R2(SumTaxes(ls)), R2(SumTotals(ls)))))
  }

  lemma PriceLineSubtotalInCents(unitPrice: real, quantity: int, rate: real)
    ensures IsCents(PriceLine(unitPrice, quantity, rate).subtotal)
  {
    R2IsCents(Mul(unitPrice, quantity as real));
  }

  lemma PriceLineTaxInCents(unitPrice: real, quantity: int, rate: real)
    ensures IsCents(PriceLine(unitPrice, quantity, rate).taxAmount)
  {
    var p := PriceLine(unitPrice, quantity, rate);
    R2IsCents(Mul(p.subtotal, rate));
  }

  lemma PriceLineTotalIsSum(unitPrice: real, quantity: int, rate: real)
    requires IsCents(PriceLine(unitPrice, quantity, rate).subtotal)
    requires IsCents(PriceLine(unitPrice, quantity, rate).taxAmount)
    ensures var p := PriceLine(unitPrice, quantity, rate);
      IsCents(p.total) && p.total == p.subtotal + p.taxAmount
  {
    var p := PriceLine(unitPrice, quantity, rate);
    CentsAdd(p.subtotal, p.taxAmount);
    R2OfCents(p.subtotal + p.taxAmount);
  }

  /** Every priced line is in cents and its total is exactly subtotal + tax. */
  lemma PriceLineInCents(unitPrice: real, quantity: int, rate: real)
    ensures var p := PriceLine(unitPrice, quantity, rate);
      && IsCents(p.subtotal) && IsCents(p.taxAmount) && IsCents(p.total)
      && p.total == p.subtotal + p.taxAmount
  {
    PriceLineSubtotalInCents(unitPrice, quantity, rate);
    PriceLineTaxInCents(unitPrice, quantity, rate);
    PriceLineTotalIsSum(unitPrice, quantity, rate);
  }

  /** For a price in cents the line subtotal is the exact product price·qty. */
  lemma PriceLineSubtotalExact(unitPrice: real, quantity: int, rate: real)
    requires IsCents(unitPrice)
    ensures PriceLine(unitPrice, quantity, rate).subtotal == Mul(unitPrice, quantity as real)
  {
    CentsTimesQuantity(unitPrice, quantity);
    R2OfCents(Mul(unitPrice, quantity as real));
  }

  /**
    For a price in cents (and non-negative quantity and rate) the line total
    is round(price·qty·(1 + rate), 2): rounding once at the end gives the
    same total as the three successive roundings.
   */
  lemma PriceLineOnCents(unitPrice: real, quantity: int, rate: real)
    requires IsCents(unitPrice) && unitPrice >= 0.0 && quantity >= 0 && rate >= 0.0
    ensures var p := PriceLine(unitPrice, quantity, rate);
      var sub := Mul(unitPrice, quantity as real);
      && p.subtotal == sub
      && p.taxAmount == R2(Mul(sub, rate))
      && p.total == R2(Mul(sub, 1.0 + rate))
  {
    var sub := Mul(unitPrice, quantity as real);
    var p := PriceLine(unitPrice, quantity, rate);
    PriceLineSubtotalExact(unitPrice, quantity, rate);
    PriceLineInCents(unitPrice, quantity, rate);
    CentsTimesQuantity(unitPrice, quantity);
    RoundOnceAtTheEnd(sub, rate, p.taxAmount, p.total);
  }

  lemma RoundOnceAtTheEnd(sub: real, rate: real, tax: real, total: real)
    requires IsCents(sub) && sub >= 0.0 && rate >= 0.0
    requires tax == R2(Mul(sub, rate)) && total == sub + tax
    ensures total == R2(Mul(sub, 1.0 + rate))
  {
    assert Mul(sub, rate) >= 0.0;
    R2ShiftCents(sub, Mul(sub, rate));
    assert Mul(sub, 1.0 + rate) == sub + Mul(sub, rate);
  }

  /** 48.00 × 2 at the default 0.18 gives 96.00 / 17.28 / 113.28. */
  lemma PriceLineExample()
    ensures PriceLine(Cents(4800), 2, DEFAULT_TAX_RATE) == LinePrice(96.0, 17.28, 113.28)
  {
    assert Cents(4800) * 2 as real == 96.0;
    R2NonNegative(96.0);
    assert (100.0 * 96.0 + 0.5).Floor == 9600;
    R2NonNegative(96.0 * 0.18);
    assert 100.0 * (96.0 * 0.18) + 0.5 == 1728.5;
    assert (1728.5).Floor == 1728;
    R2NonNegative(96.0 + 17.28);
    assert 100.0 * (96.0 + 17.28) + 0.5 == 11328.5;
    assert (11328.5).Floor == 11328;
  }

  lemma {:induction false} SumsInCents(ls: seq<PreviewLine>)
    requires forall i :: 0 <= i < |ls| ==>
      IsCents(ls[i].price.subtotal) && IsCents(ls[i].price.taxAmount) &&
      ls[i].price.total == ls[i].price.subtotal + ls[i].price.taxAmount
    ensures IsCents(SumSubtotals(ls)) && IsCents(SumTaxes(ls))
    ensures SumTotals(ls) == SumSubtotals(ls) + SumTaxes(ls)
  {
    if ls != [] {
      SumsInCents(ls[1..]);
      CentsAdd(ls[0].price.subtotal, SumSubtotals(ls[1..]));
      CentsAdd(ls[0].price.taxAmount, SumTaxes(ls[1..]));
    }
  }

  /**
    The summary of a successful preview is exact: its subtotal and taxes are
    the plain sums of the line amounts (the final round changes nothing), and
    its total is their sum.
   */
  lemma PreviewSummaryExact(t: Tables, lines: seq<LineInput>, taxes: TaxField)
    requires SalablesHaveProducts(t)
    requires Preview(t, lines, taxes).Ok?
    ensures var r := Preview(t, lines, taxes).value;
      && r.summary.subtotal == SumSubtotals(r.lines)
      && r.summary.taxes == SumTaxes(r.lines)
      && r.summary.total == r.summary.subtotal + r.summary.taxes
  {
    var r := Preview(t, lines, taxes).value;
    forall i | 0 <= i < |r.lines|
      ensures IsCents(r.lines[i].price.subtotal) && IsCents(r.lines[i].price.taxAmount)
      ensures r.lines[i].price.total == r.lines[i].price.subtotal + r.lines[i].price.taxAmount
    {
      var l := r.lines[i];
      PriceLineInCents(l.unitPrice, l.quantity, l.taxRate);
    }
    SumsInCents(r.lines);
    R2OfCents(SumSubtotals(r.lines));
    R2OfCents(SumTaxes(r.lines));
    CentsAdd(SumSubtotals(r.lines), SumTaxes(r.lines));
    R2OfCents(SumTotals(r.lines));
  }
}
