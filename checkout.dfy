/**
  `SaleController::store`: the checkout transaction. The lines are walked in
  the order given; each re-reads the current stock of its product (seeing
  the decrements of earlier lines), and one line short of stock aborts the
  whole transaction. Otherwise one sale, one item per line and every stock
  decrement are committed together.
 */
module Checkout {
  import opened Wrappers
  import opened Schema
  import opened Pricing
  import opened PickupCode
  import opened SaleViews

  const PAID: string := "PAID"

  /** The `validate` rules of `store`: an existing user, then the rules on the items. */
  predicate ValidCheckout(t: Tables, userId: int, lines: seq<LineInput>, taxes: TaxField) {
    userId in t.users && ValidLines(t, lines) && ValidTaxField(taxes)
  }

  /** One iteration of the `foreach`: look up, lock and check the product, then decrement it. */
  function ApplyLine(ps: map<int, Product>, salables: map<int, Salable>, line: LineInput): Result<map<int, Product>, SaleError> {
    if line.salableId !in salables then Err(SalableNotFound)
    else
      var pid := salables[line.salableId].productId;
      if pid !in ps then Err(ProductNotFound)
      else if ps[pid].stock < line.quantity then Err(InsufficientStock(ps[pid].name))
      else Ok(ps[pid := ps[pid].(stock := ps[pid].stock - line.quantity)])
  }

  /** The products after walking the lines in order; the first failing line decides the error. */
  function ApplyLines(ps: map<int, Product>, salables: map<int, Salable>, lines: seq<LineInput>): Result<map<int, Product>, SaleError> {
    if lines == [] then Ok(ps)
    else
      match ApplyLines(ps, salables, lines[..|lines| - 1])
      case Err(e) => Err(e)
      case Ok(before) => ApplyLine(before, salables, lines[|lines| - 1])
  }

  /** The total quantity the lines ask of product `pid`. */
  function Demand(salables: map<int, Salable>, lines: seq<LineInput>, pid: int): int {
    if lines == [] then 0
    else
      var line := lines[|lines| - 1];
      Demand(salables, lines[..|lines| - 1], pid)
        + (if line.salableId in salables && salables[line.salableId].productId == pid then line.quantity else 0)
  }

  /** The `sale_items` rows created for the lines, ids allocated from `firstId`. */
  function NewItems(saleId: int, firstId: int, lines: seq<LineInput>, rate: real): (r: seq<SaleItem>)
    requires forall i :: 0 <= i < |lines| ==> lines[i].quantity >= 0
    ensures |r| == |lines|
  {
    if lines == [] then []
    else
      var line := lines[|lines| - 1];
      NewItems(saleId, firstId, lines[..|lines| - 1], rate)
        + [SaleItem(firstId + |lines| - 1, saleId, line.salableId, line.quantity, LineRate(line.taxes, rate))]
  }

  /** The state a checkout commits, or the error that rolls it back. */
  function Checkout(t: Tables, saleId: int, firstItemId: int, userId: int,
                    lines: seq<LineInput>, taxes: TaxField, code: string, now: int): Result<Tables, SaleError>
  {
    if !ValidCheckout(t, userId, lines, taxes) then Err(ValidationFailed)
    else
      match ApplyLines(t.products, t.salables, lines)
      case Err(e) => Err(e)
      case Ok(ps) =>
        Ok(t.(products := ps,
              sales := t.sales + [Sale(saleId, userId, PAID, now, code)],
              items := t.items + NewItems(saleId, firstItemId, lines, DefaultRate(taxes))))
  }

  /** What every line must resolve to for the stock walk to be decided by stock alone. */
  predicate LinesResolve(ps: map<int, Product>, salables: map<int, Salable>, lines: seq<LineInput>) {
    forall i :: 0 <= i < |lines| ==>
      lines[i].salableId in salables && salables[lines[i].salableId].productId in ps && lines[i].quantity >= 0
  }

  // Properties of the stock walk.

  /** Once a prefix of the lines has failed, the whole walk fails with the same error. */
  lemma {:induction false} ApplyLinesErrExtends(ps: map<int, Product>, salables: map<int, Salable>, lines: seq<LineInput>, i: int)
    requires 0 <= i <= |lines| && ApplyLines(ps, salables, lines[..i]).Err?
    ensures ApplyLines(ps, salables, lines) == ApplyLines(ps, salables, lines[..i])
    decreases |lines|
  {
    if i == |lines| {
      assert lines[..i] == lines;
    } else {
      var init := lines[..|lines| - 1];
      assert init[..i] == lines[..i];
      ApplyLinesErrExtends(ps, salables, init, i);
    }
  }

  /**
    The walk succeeds exactly when no product is asked for more than its
    stock in total; it then lowers each product's stock by exactly its total
    demand and changes nothing else. A failure is always a stock shortage.
   */
  lemma {:induction false} StockWalk(ps: map<int, Product>, salables: map<int, Salable>, lines: seq<LineInput>)
    requires LinesResolve(ps, salables, lines)
    ensures var r := ApplyLines(ps, salables, lines);
      (r.Ok? <==> forall pid :: pid in ps ==> Demand(salables, lines, pid) <= ps[pid].stock)
    ensures var r := ApplyLines(ps, salables, lines);
      r.Err? ==> r.error.InsufficientStock?
    ensures var r := ApplyLines(ps, salables, lines);
      r.Ok? ==> r.value.Keys == ps.Keys && forall pid :: pid in ps ==>
        && r.value[pid].stock == ps[pid].stock - Demand(salables, lines, pid)
        && r.value[pid].name == ps[pid].name
        && r.value[pid].description == ps[pid].description
  {
    if lines != [] {
      var init := lines[..|lines| - 1];
      var line := lines[|lines| - 1];
      assert LinesResolve(ps, salables, init) by {
        forall i | 0 <= i < |init| ensures init[i] == lines[i] { }
      }
      StockWalk(ps, salables, init);
      var p0 := salables[line.salableId].productId;
      match ApplyLines(ps, salables, init)
      case Err(e) =>
        var pid :| pid in ps && Demand(salables, init, pid) > ps[pid].stock;
        assert Demand(salables, lines, pid) > ps[pid].stock;
      case Ok(before) =>
        if before[p0].stock < line.quantity {
          assert Demand(salables, lines, p0) > ps[p0].stock;
        } else {
          var after := ApplyLines(ps, salables, lines).value;
          forall pid | pid in ps
            ensures Demand(salables, lines, pid) <= ps[pid].stock
            ensures after[pid].stock == ps[pid].stock - Demand(salables, lines, pid)
          {
          }
        }
    }
  }

  /** Demand is zero for a product no line refers to. */
  lemma {:induction false} DemandUnreferenced(salables: map<int, Salable>, lines: seq<LineInput>, pid: int)
    requires forall i :: 0 <= i < |lines| ==> lines[i].salableId in salables ==> salables[lines[i].salableId].productId != pid
    ensures Demand(salables, lines, pid) == 0
  {
    if lines != [] {
      DemandUnreferenced(salables, lines[..|lines| - 1], pid);
    }
  }

  /** The i-th created item records the i-th line, its resolved tax rate and the new sale. */
  lemma {:induction false} NewItemsAt(saleId: int, firstId: int, lines: seq<LineInput>, rate: real, i: int)
    requires forall j :: 0 <= j < |lines| ==> lines[j].quantity >= 0
    requires 0 <= i < |lines|
    ensures NewItems(saleId, firstId, lines, rate)[i] ==
      SaleItem(firstId + i, saleId, lines[i].salableId, lines[i].quantity, LineRate(lines[i].taxes, rate))
  {
    if i < |lines| - 1 {
      NewItemsAt(saleId, firstId, lines[..|lines| - 1], rate, i);
    }
  }

  /**
    Two lines of 3 for a product with stock 5 fail, though each alone would
    fit: the second line sees the first one's decrement. One line of 5 takes
    the stock to 0.
   */
  lemma RepeatedLinesSeeEarlierDecrements()
    ensures var ps := map[1 := Product("Pan", "", 5)];
      var ss := map[10 := Salable(1, 150)];
      && ApplyLines(ps, ss, [LineInput(10, 3, Absent), LineInput(10, 3, Absent)]) == Err(InsufficientStock("Pan"))
      && ApplyLines(ps, ss, [LineInput(10, 5, Absent)]) == Ok(map[1 := Product("Pan", "", 0)])
  {
    var ps := map[1 := Product("Pan", "", 5)];
    var ss := map[10 := Salable(1, 150)];
    var two := [LineInput(10, 3, Absent), LineInput(10, 3, Absent)];
    assert two[..1] == [LineInput(10, 3, Absent)];
    assert [LineInput(10, 3, Absent)][..0] == [];
    assert ApplyLines(ps, ss, []) == Ok(ps);
    assert ps[1 := Product("Pan", "", 2)] == map[1 := Product("Pan", "", 2)];
    assert ApplyLines(ps, ss, two[..1]) == ApplyLine(ps, ss, LineInput(10, 3, Absent));
    assert ApplyLines(ps, ss, two[..1]) == Ok(map[1 := Product("Pan", "", 2)]);
    assert [LineInput(10, 5, Absent)][..0] == [];
    assert ps[1 := Product("Pan", "", 0)] == map[1 := Product("Pan", "", 0)];
    assert ApplyLines(ps, ss, [LineInput(10, 5, Absent)]) == ApplyLine(ps, ss, LineInput(10, 5, Absent));
  }

  // Properties of a committed checkout.

  /** A checkout passing validation succeeds exactly when every product has stock for its total demand. */
  lemma CheckoutSucceedsIff(t: Tables, saleId: int, firstItemId: int, userId: int,
                            lines: seq<LineInput>, taxes: TaxField, code: string, now: int)
    requires SalablesHaveProducts(t)
    requires ValidCheckout(t, userId, lines, taxes)
    ensures var r := Checkout(t, saleId, firstItemId, userId, lines, taxes, code, now);
      && (r.Ok? <==> forall pid :: pid in t.products ==> Demand(t.salables, lines, pid) <= t.products[pid].stock)
      && (r.Err? ==> r.error.InsufficientStock?)
  {
    StockWalk(t.products, t.salables, lines);
  }

  /** A failed validation is reported before anything else, whatever the stock. */
  lemma CheckoutValidationFirst(t: Tables, saleId: int, firstItemId: int, userId: int,
                                lines: seq<LineInput>, taxes: TaxField, code: string, now: int)
    requires !ValidCheckout(t, userId, lines, taxes)
    ensures Checkout(t, saleId, firstItemId, userId, lines, taxes, code, now) == Err(ValidationFailed)
  {
  }

  /**
    A committed checkout lowers every product's stock by its total demand
    (never below zero), leaves products no line refers to as they were, and
    does not touch salable products or users.
   */
  lemma CheckoutStock(t: Tables, saleId: int, firstItemId: int, userId: int,
                      lines: seq<LineInput>, taxes: TaxField, code: string, now: int)
    requires SalablesHaveProducts(t)
    requires Checkout(t, saleId, firstItemId, userId, lines, taxes, code, now).Ok?
    ensures var t' := Checkout(t, saleId, firstItemId, userId, lines, taxes, code, now).value;
      && t'.products.Keys == t.products.Keys
      && t'.salables == t.salables && t'.users == t.users
      && forall pid :: pid in t.products ==>
           && Demand(t.salables, lines, pid) <= t.products[pid].stock
           && t'.products[pid].stock == t.products[pid].stock - Demand(t.salables, lines, pid)
           && t'.products[pid].name == t.products[pid].name
  {
    StockWalk(t.products, t.salables, lines);
  }

  /** A product no line refers to keeps its stock. */
  lemma CheckoutUnreferencedUnchanged(t: Tables, saleId: int, firstItemId: int, userId: int,
                                      lines: seq<LineInput>, taxes: TaxField, code: string, now: int, pid: int)
    requires SalablesHaveProducts(t)
    requires Checkout(t, saleId, firstItemId, userId, lines, taxes, code, now).Ok?
    requires pid in t.products
    requires forall i :: 0 <= i < |lines| ==> t.salables[lines[i].salableId].productId != pid
    ensures var t' := Checkout(t, saleId, firstItemId, userId, lines, taxes, code, now).value;
      pid in t'.products && t'.products[pid] == t.products[pid]
  {
    StockWalk(t.products, t.salables, lines);
    DemandUnreferenced(t.salables, lines, pid);
  }

  /**
    A committed checkout appends one PAID sale for the user, paid now, with
    the pickup code, and one item per line, in order, each recording the
    line's salable product, quantity and resolved tax rate.
   */
  lemma CheckoutRecords(t: Tables, saleId: int, firstItemId: int, userId: int,
                        lines: seq<LineInput>, taxes: TaxField, code: string, now: int)
    requires Checkout(t, saleId, firstItemId, userId, lines, taxes, code, now).Ok?
    ensures var t' := Checkout(t, saleId, firstItemId, userId, lines, taxes, code, now).value;
      && t'.sales == t.sales + [Sale(saleId, userId, PAID, now, code)]
      && |t'.items| == |t.items| + |lines|
      && t'.items[..|t.items|] == t.items
      && forall k :: |t.items| <= k < |t'.items| ==>
           var i := k - |t.items|;
           t'.items[k] == SaleItem(firstItemId + i, saleId, lines[i].salableId, lines[i].quantity,
                                   LineRate(lines[i].taxes, DefaultRate(taxes)))
  {
    var t' := Checkout(t, saleId, firstItemId, userId, lines, taxes, code, now).value;
    var created := NewItems(saleId, firstItemId, lines, DefaultRate(taxes));
    assert t'.items == t.items + created;
    forall k | |t.items| <= k < |t'.items|
      ensures t'.items[k] == SaleItem(firstItemId + (k - |t.items|), saleId, lines[k - |t.items|].salableId,
                                      lines[k - |t.items|].quantity, LineRate(lines[k - |t.items|].taxes, DefaultRate(taxes)))
    {
      NewItemsAt(saleId, firstItemId, lines, DefaultRate(taxes), k - |t.items|);
    }
  }

  /** Resolved tax rates of validated input are never negative. */
  lemma LineRateNonNegative(t: TaxField, default: TaxField)
    requires ValidTaxField(t) && ValidTaxField(default)
    ensures LineRate(t, DefaultRate(default)) >= 0.0
  {
  }

  /** The id bounds the auto-increment counters keep: every row's id is below its counter. */
  predicate IdsBelow(t: Tables, nextSaleId: int, nextItemId: int) {
    && (forall k :: 0 <= k < |t.sales| ==> t.sales[k].id < nextSaleId)
    && (forall k :: 0 <= k < |t.items| ==> t.items[k].id < nextItemId)
  }

  /** A committed checkout keeps every foreign key and the counters' bounds. */
  lemma CheckoutKeepsKeys(t: Tables, userId: int, lines: seq<LineInput>, taxes: TaxField, code: string, now: int,
                          nextSaleId: int, nextItemId: int)
    requires ForeignKeys(t) && IdsBelow(t, nextSaleId, nextItemId)
    requires Checkout(t, nextSaleId, nextItemId, userId, lines, taxes, code, now).Ok?
    ensures var t' := Checkout(t, nextSaleId, nextItemId, userId, lines, taxes, code, now).value;
      ForeignKeys(t') && IdsBelow(t', nextSaleId + 1, nextItemId + |lines|)
  {
    var t' := Checkout(t, nextSaleId, nextItemId, userId, lines, taxes, code, now).value;
    CheckoutStock(t, nextSaleId, nextItemId, userId, lines, taxes, code, now);
    CheckoutRecords(t, nextSaleId, nextItemId, userId, lines, taxes, code, now);
    var n := |t.items|;
    assert HasSale(t', nextSaleId) by {
      assert t'.sales[|t.sales|].id == nextSaleId;
    }
    forall k | 0 <= k < |t'.items|
      ensures t'.items[k].salableId in t'.salables
      ensures HasSale(t', t'.items[k].saleId)
      ensures t'.items[k].quantity >= 1 && t'.items[k].taxes >= 0.0
      ensures t'.items[k].id < nextItemId + |lines|
    {
      if k < n {
        assert t'.items[k] == t.items[k];
        var j :| 0 <= j < |t.sales| && t.sales[j].id == t.items[k].saleId;
        assert t'.sales[j] == t.sales[j];
      } else {
        var i := k - n;
        LineRateNonNegative(lines[i].taxes, taxes);
      }
    }
    forall k | 0 <= k < |t'.sales|
      ensures t'.sales[k].userId in t'.users && t'.sales[k].id < nextSaleId + 1
    {
      if k < |t.sales| {
        assert t'.sales[k] == t.sales[k];
      }
    }
  }

  /** The new sale takes the counter's id, which no stored sale has, so `sales.id` stays a key. */
  lemma CheckoutKeepsSaleIdsUnique(t: Tables, userId: int, lines: seq<LineInput>, taxes: TaxField, code: string,
                                   now: int, nextSaleId: int, nextItemId: int)
    requires IdsBelow(t, nextSaleId, nextItemId) && SaleIdsUnique(t)
    requires Checkout(t, nextSaleId, nextItemId, userId, lines, taxes, code, now).Ok?
    ensures SaleIdsUnique(Checkout(t, nextSaleId, nextItemId, userId, lines, taxes, code, now).value)
  {
    var t' := Checkout(t, nextSaleId, nextItemId, userId, lines, taxes, code, now).value;
    CheckoutRecords(t, nextSaleId, nextItemId, userId, lines, taxes, code, now);
    forall i, j | 0 <= i < j < |t'.sales| ensures t'.sales[i].id != t'.sales[j].id {
      assert t'.sales[i] == t.sales[i];
      if j < |t.sales| {
        assert t'.sales[j] == t.sales[j];
      }
    }
  }

  /**
    After a commit the new sale is in `v_sales` and joined with its user, so
    the response of `store` is the sale's detail, never the 404.
   */
  lemma CheckoutIsShown(t: Tables, userId: int, lines: seq<LineInput>, taxes: TaxField, code: string, now: int,
                        nextSaleId: int, nextItemId: int)
    requires ForeignKeys(t)
    requires Checkout(t, nextSaleId, nextItemId, userId, lines, taxes, code, now).Ok?
    ensures Show(Checkout(t, nextSaleId, nextItemId, userId, lines, taxes, code, now).value, nextSaleId).Ok?
  {
    var t' := Checkout(t, nextSaleId, nextItemId, userId, lines, taxes, code, now).value;
    CheckoutStock(t, nextSaleId, nextItemId, userId, lines, taxes, code, now);
    CheckoutRecords(t, nextSaleId, nextItemId, userId, lines, taxes, code, now);
    var rows := ItemRows(t');
    var k := |t.items|;
    assert ValidCheckout(t, userId, lines, taxes);
    var it := t'.items[k];
    assert it.saleId == nextSaleId && it.salableId in t'.salables;
    SaleItemsViewUsesCurrentPrice(t'.items, t'.salables, k);
    var row := ItemRow(it, t'.salables[it.salableId]);
    RowsOfSaleMember(rows, nextSaleId, row);
    assert RowsOfSale(rows, nextSaleId) != [];
    var sales := t'.sales;
    assert sales[..|sales| - 1] == t.sales;
    var view := SalesView(sales, rows);
    var last := view[|view| - 1];
    assert last.id == nextSaleId && last.userId == userId && userId in t'.users;
  }

  /** The `sales` and `sale_items` tables with their auto-increment counters. */
  class SalesDatabase {
    var products: map<int, Product>
    var salables: map<int, Salable>
    var users: map<int, User>
    var sales: seq<Sale>
    var items: seq<SaleItem>
    var nextSaleId: int
    var nextItemId: int

    function Tables(): Tables
      reads this
    {
      Schema.Tables(products, salables, users, sales, items)
    }

    ghost predicate Valid()
      reads this
    {
      ForeignKeys(Tables()) && IdsBelow(Tables(), nextSaleId, nextItemId) && SaleIdsUnique(Tables())
    }

    constructor (products: map<int, Product>, salables: map<int, Salable>, users: map<int, User>)
      requires forall s :: s in salables ==> salables[s].productId in products
      ensures Valid()
      ensures Tables() == Schema.Tables(products, salables, users, [], [])
      ensures nextSaleId == 1 && nextItemId == 1
    {
      this.products := products;
      this.salables := salables;
      this.users := users;
      this.sales := [];
      this.items := [];
      this.nextSaleId := 1;
      this.nextItemId := 1;
    }

    /**
      The `foreach` of `store` inside the transaction: walks the lines over a
      copy of the products, building the item rows, and stops at the first
      failing line. Nothing is written.
     */
    method WalkLines(lines: seq<LineInput>, saleId: int, rate: real)
      returns (r: Result<map<int, Product>, SaleError>, created: seq<SaleItem>)
      requires forall i :: 0 <= i < |lines| ==> lines[i].quantity >= 0
      ensures r == ApplyLines(products, salables, lines)
      ensures r.Ok? ==> created == NewItems(saleId, nextItemId, lines, rate)
    {
      var stock := products;
      created := [];
      var i := 0;
      while i < |lines|
        invariant 0 <= i <= |lines|
        invariant ApplyLines(products, salables, lines[..i]) == Ok(stock)
        invariant created == NewItems(saleId, nextItemId, lines[..i], rate)
      {
        var line := lines[i];
        assert lines[..i + 1][..i] == lines[..i];
        if line.salableId !in salables {
          ApplyLinesErrExtends(products, salables, lines, i + 1);
          return Err(SalableNotFound), created;
        }
        var pid := salables[line.salableId].productId;
        if pid !in stock {
          ApplyLinesErrExtends(products, salables, lines, i + 1);
          return Err(ProductNotFound), created;
        }
        if stock[pid].stock < line.quantity {
          ApplyLinesErrExtends(products, salables, lines, i + 1);
          return Err(InsufficientStock(stock[pid].name)), created;
        }
        created := created + [SaleItem(nextItemId + i, saleId, line.salableId, line.quantity, LineRate(line.taxes, rate))];
        stock := stock[pid := stock[pid].(stock := stock[pid].stock - line.quantity)];
        i := i + 1;
      }
      assert lines[..i] == lines;
      r := Ok(stock);
    }

    /**
      `POST /sales`. `random` is the value of `random_int(0, 999999)` and
      `now` the clock. On failure nothing is written; on success the state is
      the committed checkout and the response is the new sale's detail.
     */
    method Store(userId: int, lines: seq<LineInput>, taxes: TaxField, random: int, now: int)
      returns (r: Result<SaleDetail, SaleError>)
      requires Valid() && 0 <= random <= MAX_CODE
      modifies this
      ensures Valid()
      ensures var out := Checkout(old(Tables()), old(nextSaleId), old(nextItemId), userId, lines, taxes, CodeOf(random), now);
        && (out.Err? ==> r == Err(out.error) && unchanged(this))
        && (out.Ok? ==> && Tables() == out.value
                        && nextSaleId == old(nextSaleId) + 1 && nextItemId == old(nextItemId) + |lines|
                        && r == Show(Tables(), old(nextSaleId)) && r.Ok?)
    {
      ghost var before := Tables();
      var code := CodeOf(random);
      ghost var out := Checkout(before, nextSaleId, nextItemId, userId, lines, taxes, code, now);
      if !ValidCheckout(Tables(), userId, lines, taxes) {
        return Err(ValidationFailed);
      }
      var saleId := nextSaleId;
      var walked, created := WalkLines(lines, saleId, DefaultRate(taxes));
      if walked.Err? {
        assert out == Err(walked.error);
        return Err(walked.error);
      }
      assert out.Ok? && out.value == before.(products := walked.value,
                                             sales := sales + [Sale(saleId, userId, PAID, now, code)],
                                             items := items + created);
      CheckoutKeepsKeys(before, userId, lines, taxes, code, now, nextSaleId, nextItemId);
      CheckoutKeepsSaleIdsUnique(before, userId, lines, taxes, code, now, nextSaleId, nextItemId);
      CheckoutIsShown(before, userId, lines, taxes, code, now, nextSaleId, nextItemId);
      products := walked.value;
      sales := sales + [Sale(saleId, userId, PAID, now, code)];
      items := items + created;
      nextSaleId := nextSaleId + 1;
      nextItemId := nextItemId + |lines|;
      assert Tables() == out.value;
      r := Show(Tables(), saleId);
    }
  }
}
