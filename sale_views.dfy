/**
  The read side of the sale engine: the `v_sale_items` and `v_sales` SQL
  views, `formatSaleItemRow`, `formatSaleRow`, the detail lookup
  (`buildSaleResponse`) and the listing (`index`).

  The views join the CURRENT salable price: an item stores no price of its
  own, so a price change alters the reported amounts of past sales.
 */
module SaleViews {
  import opened Wrappers
  import opened Money
  import opened Schema
  import opened Ordering
  import Pricing

  /** A row of `v_sale_items`: the item joined with its salable product, amounts unrounded. */
  datatype SaleItemRow = SaleItemRow(
    id: int, saleId: int, salableId: int, quantity: nat, taxes: real,
    unitPrice: real, subtotal: real, total: real)

  /** `sp.price AS unit_price, sp.price * si.quantity AS subtotal, sp.price * si.quantity * (1 + si.taxes) AS total` */
  function ItemRow(it: SaleItem, sp: Salable): SaleItemRow {
    var price := Cents(sp.priceCents);
    var subtotal := Mul(price, it.quantity as real);
    SaleItemRow(it.id, it.saleId, it.salableId, it.quantity, it.taxes,
                price, subtotal, Mul(subtotal, 1.0 + it.taxes))
  }

  /** `v_sale_items`: an inner join, so an item whose salable product is gone has no row. */
  function SaleItemsView(items: seq<SaleItem>, salables: map<int, Salable>): (rows: seq<SaleItemRow>)
    ensures |rows| <= |items|
  {
    if items == [] then []
    else
      var last := items[|items| - 1];
      SaleItemsView(items[..|items| - 1], salables)
        + (if last.salableId in salables then [ItemRow(last, salables[last.salableId])] else [])
  }

  /** The view rows of one sale, in table order. */
  function RowsOfSale(rows: seq<SaleItemRow>, saleId: int): seq<SaleItemRow> {
    if rows == [] then []
    else
      RowsOfSale(rows[..|rows| - 1], saleId)
        + (if rows[|rows| - 1].saleId == saleId then [rows[|rows| - 1]] else [])
  }

  function SumSubtotals(rows: seq<SaleItemRow>): real {
    if rows == [] then 0.0 else SumSubtotals(rows[..|rows| - 1]) + rows[|rows| - 1].subtotal
  }

  function SumTotals(rows: seq<SaleItemRow>): real {
    if rows == [] then 0.0 else SumTotals(rows[..|rows| - 1]) + rows[|rows| - 1].total
  }

  /** A row of `v_sales`: the sale with the sums of its items' unrounded amounts. */
  datatype SaleRow = SaleRow(
    id: int, userId: int, status: string, paidAt: int, code: string,
    subtotal: real, total: real)

  /**
    `v_sales`: sales JOIN v_sale_items GROUP BY s.id. The inner join drops a
    sale that has no item rows.
   */
  function SalesView(sales: seq<Sale>, itemRows: seq<SaleItemRow>): (rows: seq<SaleRow>)
    ensures |rows| <= |sales|
  {
    if sales == [] then []
    else
      var s := sales[|sales| - 1];
      var mine := RowsOfSale(itemRows, s.id);
      SalesView(sales[..|sales| - 1], itemRows)
        + (if mine == [] then []
           else [SaleRow(s.id, s.userId, s.status, s.paidAt, s.code, SumSubtotals(mine), SumTotals(mine))])
  }

  /** `COUNT(*) AS line_count, SUM(quantity) AS units_count` over the raw `sale_items` of one sale. */
  datatype Counts = Counts(lineCount: int, unitsCount: int)

  function ItemsOf(items: seq<SaleItem>, saleId: int): seq<SaleItem> {
    if items == [] then []
    else
      ItemsOf(items[..|items| - 1], saleId)
        + (if items[|items| - 1].saleId == saleId then [items[|items| - 1]] else [])
  }

  function SumQuantities(items: seq<SaleItem>): int {
    if items == [] then 0 else SumQuantities(items[..|items| - 1]) + items[|items| - 1].quantity
  }

  /** The grouped count row of a sale; no row when the sale has no items. */
  function CountsOf(items: seq<SaleItem>, saleId: int): Option<Counts> {
    var mine := ItemsOf(items, saleId);
    if mine == [] then None else Some(Counts(|mine|, SumQuantities(mine)))
  }

  /** The sale as the API reports it (`formatSaleRow`). */
  datatype SaleSummary = SaleSummary(
    id: int, userId: int, userName: string, userEmail: string,
    status: string, paidAt: int, code: string,
    subtotal: real, total: real, taxTotal: real, counts: Option<Counts>)

  /** `formatSaleRow`: amounts rounded to cents; the tax is derived from the two sums. */
  function FormatSaleRow(row: SaleRow, user: User, counts: Option<Counts>): SaleSummary {
    SaleSummary(row.id, row.userId, user.name, user.email, row.status, row.paidAt, row.code,
                R2(row.subtotal), R2(row.total), R2(row.total - row.subtotal), counts)
  }

  datatype ItemProduct = ItemProduct(id: int, name: string, description: string)

  /** An item as the API reports it (`formatSaleItemRow`). */
  datatype SaleItemDetail = SaleItemDetail(
    id: int, saleId: int, salableId: int, quantity: nat, taxes: real,
    unitPrice: real, subtotal: real, total: real, taxAmount: real, product: ItemProduct)

  /** `formatSaleItemRow`: the rate to 4 decimals, amounts to cents, tax = round(total - subtotal). */
  function FormatSaleItemRow(row: SaleItemRow, productId: int, p: Product): SaleItemDetail {
    SaleItemDetail(row.id, row.saleId, row.salableId, row.quantity, R4(row.taxes),
                   R2(row.unitPrice), R2(row.subtotal), R2(row.total), R2(row.total - row.subtotal),
                   ItemProduct(productId, p.name, p.description))
  }

  /** The v_sales row of a sale joined with its user (the first row with that id). */
  function FindSale(rows: seq<SaleRow>, users: map<int, User>, saleId: int): (r: Option<SaleRow>)
    ensures r.Some? ==> r.value in rows && r.value.id == saleId && r.value.userId in users
    ensures r.None? ==> forall k :: 0 <= k < |rows| ==> rows[k].id == saleId ==> rows[k].userId !in users
  {
    if rows == [] then None
    else if rows[0].id == saleId && rows[0].userId in users then Some(rows[0])
    else
      var r := FindSale(rows[1..], users, saleId);
      assert forall k :: 1 <= k < |rows| ==> rows[k] == rows[1..][k - 1];
      r
  }

  /**
    The item lines of a sale: v_sale_items JOIN salable_products JOIN products
    WHERE sale_id, formatted.
   */
  function DetailItems(rows: seq<SaleItemRow>, t: Tables): seq<SaleItemDetail> {
    if rows == [] then []
    else
      var row := rows[|rows| - 1];
      DetailItems(rows[..|rows| - 1], t)
        + (if row.salableId in t.salables && t.salables[row.salableId].productId in t.products
           then [FormatSaleItemRow(row, t.salables[row.salableId].productId,
                                   t.products[t.salables[row.salableId].productId])]
           else [])
  }

  function ItemKey(d: SaleItemDetail): (int, int) {
    (d.id, 0)
  }

  datatype SaleDetail = SaleDetail(sale: SaleSummary, items: seq<SaleItemDetail>)

  function ItemRows(t: Tables): seq<SaleItemRow> {
    SaleItemsView(t.items, t.salables)
  }

  /** The v_sales row of the sale exists and its user exists: the join `buildSaleResponse` reads. */
  predicate Showable(t: Tables, saleId: int, x: SaleRow) {
    x in SalesView(t.sales, ItemRows(t)) && x.id == saleId && x.userId in t.users
  }

  /**
    `buildSaleResponse` / `GET /sales/{id}`: 404 exactly when no v_sales row
    of the sale joins a user; otherwise the header is formatSaleRow of that
    row with the sale's counts, and the items come in id order.
   */
  function Show(t: Tables, saleId: int): (r: Result<SaleDetail, SaleError>)
    ensures r.Err? ==> r.error == SaleNotFound
    ensures r.Ok? <==> exists x :: Showable(t, saleId, x)
    ensures r.Ok? ==> exists x :: Showable(t, saleId, x)
                                  && r.value.sale == FormatSaleRow(x, t.users[x.userId], CountsOf(t.items, saleId))
    ensures r.Ok? ==> r.value.sale.id == saleId
    ensures r.Ok? ==> SortedBy(r.value.items, ItemKey)
    ensures r.Ok? ==> forall k :: 0 <= k < |r.value.items| ==> r.value.items[k].saleId == saleId
  {
    var rows := ItemRows(t);
    var view := SalesView(t.sales, rows);
    match FindSale(view, t.users, saleId)
    case None =>
      assert forall x :: x in view ==> !Showable(t, saleId, x) by {
        forall x | x in view ensures !Showable(t, saleId, x) {
          var k :| 0 <= k < |view| && view[k] == x;
        }
      }
      Err(SaleNotFound)
    case Some(row) =>
      assert Showable(t, saleId, row);
      var mine := RowsOfSale(rows, saleId);
      RowsOfSaleIds(rows, saleId);
      DetailItemsIds(mine, t, saleId);
      SortedKeepsSaleId(DetailItems(mine, t), ShowItems(t, saleId), saleId);
      Ok(SaleDetail(FormatSaleRow(row, t.users[row.userId], CountsOf(t.items, saleId)), ShowItems(t, saleId)))
  }

  /** The item lines of the detail: `WHERE vsi.sale_id = ? ORDER BY vsi.id`. */
  function ShowItems(t: Tables, saleId: int): seq<SaleItemDetail> {
    SortBy(DetailItems(RowsOfSale(ItemRows(t), saleId), t), ItemKey)
  }

  /** A stored item whose salable product and product both exist: the joins of the detail query keep it. */
  predicate Joinable(t: Tables, it: SaleItem) {
    it.salableId in t.salables && t.salables[it.salableId].productId in t.products
  }

  /** formatSaleItemRow of the joined row of a stored item. */
  function DetailOf(t: Tables, it: SaleItem): SaleItemDetail
    requires Joinable(t, it)
  {
    var sp := t.salables[it.salableId];
    FormatSaleItemRow(ItemRow(it, sp), sp.productId, t.products[sp.productId])
  }

  lemma {:induction false} DetailItemsMember(rows: seq<SaleItemRow>, t: Tables, d: SaleItemDetail)
    ensures d in DetailItems(rows, t) <==>
      exists row :: row in rows && row.salableId in t.salables && t.salables[row.salableId].productId in t.products
                    && d == FormatSaleItemRow(row, t.salables[row.salableId].productId,
                                              t.products[t.salables[row.salableId].productId])
  {
    if rows != [] {
      DetailItemsMember(rows[..|rows| - 1], t, d);
      assert rows == rows[..|rows| - 1] + [rows[|rows| - 1]];
    }
  }

  lemma ShownItemIsStored(t: Tables, saleId: int, d: SaleItemDetail)
    requires d in ShowItems(t, saleId)
    ensures exists it :: it in t.items && it.saleId == saleId && Joinable(t, it) && d == DetailOf(t, it)
  {
    var rows := ItemRows(t);
    var mine := RowsOfSale(rows, saleId);
    SortByMembers(DetailItems(mine, t), ItemKey, d);
    DetailItemsMember(mine, t, d);
    var row :| row in mine && row.salableId in t.salables && t.salables[row.salableId].productId in t.products
               && d == FormatSaleItemRow(row, t.salables[row.salableId].productId,
                                         t.products[t.salables[row.salableId].productId]);
    RowsOfSaleMember(rows, saleId, row);
    SaleItemsViewMember(t.items, t.salables, row);
    var k :| 0 <= k < |t.items| && t.items[k].salableId in t.salables &&
      row == ItemRow(t.items[k], t.salables[t.items[k].salableId]);
    assert t.items[k] in t.items && t.items[k].saleId == saleId && Joinable(t, t.items[k]) && d == DetailOf(t, t.items[k]);
  }

  lemma StoredItemIsShown(t: Tables, saleId: int, it: SaleItem)
    requires it in t.items && it.saleId == saleId && Joinable(t, it)
    ensures DetailOf(t, it) in ShowItems(t, saleId)
  {
    var rows := ItemRows(t);
    var mine := RowsOfSale(rows, saleId);
    var k :| 0 <= k < |t.items| && t.items[k] == it;
    var row := ItemRow(it, t.salables[it.salableId]);
    SaleItemsViewUsesCurrentPrice(t.items, t.salables, k);
    RowsOfSaleMember(rows, saleId, row);
    DetailItemsMember(mine, t, DetailOf(t, it));
    SortByMembers(DetailItems(mine, t), ItemKey, DetailOf(t, it));
  }

  /**
    The items of a found sale are exactly the stored items of that sale
    whose salable product and product exist, each formatted from the
    product's current price; an item whose product is gone is left out.
   */
  lemma ShowItemsMember(t: Tables, saleId: int, d: SaleItemDetail)
    requires Show(t, saleId).Ok?
    ensures d in Show(t, saleId).value.items <==>
      exists it :: it in t.items && it.saleId == saleId && Joinable(t, it) && d == DetailOf(t, it)
  {
    assert Show(t, saleId).value.items == ShowItems(t, saleId);
    if d in ShowItems(t, saleId) {
      ShownItemIsStored(t, saleId, d);
    }
    if exists it :: it in t.items && it.saleId == saleId && Joinable(t, it) && d == DetailOf(t, it) {
      var it :| it in t.items && it.saleId == saleId && Joinable(t, it) && d == DetailOf(t, it);
      StoredItemIsShown(t, saleId, it);
    }
  }

  lemma {:induction false} RowsOfSaleIds(rows: seq<SaleItemRow>, saleId: int)
    ensures forall k :: 0 <= k < |RowsOfSale(rows, saleId)| ==> RowsOfSale(rows, saleId)[k].saleId == saleId
  {
    if rows != [] {
      RowsOfSaleIds(rows[..|rows| - 1], saleId);
    }
  }

  lemma {:induction false} DetailItemsIds(rows: seq<SaleItemRow>, t: Tables, saleId: int)
    requires forall k :: 0 <= k < |rows| ==> rows[k].saleId == saleId
    ensures forall k :: 0 <= k < |DetailItems(rows, t)| ==> DetailItems(rows, t)[k].saleId == saleId
  {
    if rows != [] {
      DetailItemsIds(rows[..|rows| - 1], t, saleId);
    }
  }

  lemma SortedKeepsSaleId(details: seq<SaleItemDetail>, sorted: seq<SaleItemDetail>, saleId: int)
    requires forall k :: 0 <= k < |details| ==> details[k].saleId == saleId
    requires multiset(sorted) == multiset(details)
    ensures forall k :: 0 <= k < |sorted| ==> sorted[k].saleId == saleId
  {
    forall k | 0 <= k < |sorted| ensures sorted[k].saleId == saleId {
      assert sorted[k] in multiset(details);
    }
  }

  const DEFAULT_LIMIT: int := 200
  const MAX_LIMIT: int := 500

  /** `max(1, min((int) $request->input('limit', 200), 500))` */
  function ClampLimit(limit: Option<int>): (n: int)
    ensures 1 <= n <= MAX_LIMIT
    ensures limit.None? ==> n == DEFAULT_LIMIT
    ensures limit.Some? ==> n == if limit.value < 1 then 1 else if limit.value > MAX_LIMIT then MAX_LIMIT else limit.value
  {
    var requested := limit.GetOr(DEFAULT_LIMIT);
    if requested > MAX_LIMIT then MAX_LIMIT else if requested < 1 then 1 else requested
  }

  /** A v_sales row joined with its user. */
  datatype Listed = Listed(row: SaleRow, user: User)

  /** The join with `users` keeps the row, and the `WHERE user_id = ?` filter, when given, matches it. */
  predicate Eligible(x: SaleRow, users: map<int, User>, userFilter: Option<int>) {
    x.userId in users && (userFilter.None? || x.userId == userFilter.value)
  }

  /**
    `JOIN users` and the optional `WHERE user_id = ?`: exactly the rows whose
    user exists and matches the filter, each with its user.
   */
  function Joined(rows: seq<SaleRow>, users: map<int, User>, userFilter: Option<int>): (r: seq<Listed>)
    ensures forall k :: 0 <= k < |r| ==> r[k].row in rows
    ensures forall k :: 0 <= k < |r| ==> Eligible(r[k].row, users, userFilter) && r[k].user == users[r[k].row.userId]
    ensures forall x :: x in rows && Eligible(x, users, userFilter) ==> Listed(x, users[x.userId]) in r
  {
    if rows == [] then []
    else
      var row := rows[|rows| - 1];
      var init := rows[..|rows| - 1];
      var rest := Joined(init, users, userFilter);
      assert rows == init + [row];
      assert forall k :: 0 <= k < |rest| ==> rest[k].row in rows by {
        forall k | 0 <= k < |rest| ensures rest[k].row in rows {
          assert rest[k].row in init;
        }
      }
      rest + (if Eligible(row, users, userFilter) then [Listed(row, users[row.userId])] else [])
  }

  /** `ORDER BY paid_at DESC, id DESC`, as an ascending order on the negated fields. */
  function ListKey(l: Listed): (int, int) {
    (-l.row.paidAt, -l.row.id)
  }

  /** The ordered, filtered and joined v_sales rows, before the limit. */
  function Listing(t: Tables, userFilter: Option<int>): seq<Listed> {
    SortBy(Joined(SalesView(t.sales, ItemRows(t)), t.users, userFilter), ListKey)
  }

  /** `formatSaleRow($row, $lineCounts->get($row->id))` of a listed row. */
  function Summary(t: Tables, l: Listed): SaleSummary {
    FormatSaleRow(l.row, l.user, CountsOf(t.items, l.row.id))
  }

  /**
    `GET /sales?user_id=&limit=`: the first `limit` rows of the ordered
    listing, newest first, each formatted with its counts.
   */
  function Index(t: Tables, limit: Option<int>, userFilter: Option<int>): (r: seq<SaleSummary>)
    ensures |r| <= ClampLimit(limit)
    ensures |r| == if |Listing(t, userFilter)| < ClampLimit(limit) then |Listing(t, userFilter)| else ClampLimit(limit)
    ensures forall i :: 0 <= i < |r| ==> r[i] == Summary(t, Listing(t, userFilter)[i])
    ensures forall i, j :: 0 <= i < j < |r| ==>
      r[i].paidAt > r[j].paidAt || (r[i].paidAt == r[j].paidAt && r[i].id >= r[j].id)
    ensures forall i :: 0 <= i < |r| ==> userFilter.Some? ==> r[i].userId == userFilter.value
  {
    var sorted := Listing(t, userFilter);
    var n := if |sorted| < ClampLimit(limit) then |sorted| else ClampLimit(limit);
    forall k | 0 <= k < |sorted| ensures userFilter.Some? ==> sorted[k].row.userId == userFilter.value {
      var joined := Joined(SalesView(t.sales, ItemRows(t)), t.users, userFilter);
      assert sorted[k] in multiset(joined);
    }
    seq(n, i requires 0 <= i < n => Summary(t, sorted[i]))
  }

  /** The listing holds exactly the v_sales rows whose user exists and matches the filter, each with its user. */
  lemma ListingMember(t: Tables, userFilter: Option<int>, l: Listed)
    ensures l in Listing(t, userFilter) <==>
      l.row in SalesView(t.sales, ItemRows(t)) && Eligible(l.row, t.users, userFilter) && l.user == t.users[l.row.userId]
  {
    var joined := Joined(SalesView(t.sales, ItemRows(t)), t.users, userFilter);
    SortByMembers(joined, ListKey, l);
    if l in joined {
      var k :| 0 <= k < |joined| && joined[k] == l;
    }
  }

  /** Every listed summary is the formatted v_sales row of an eligible sale. */
  lemma IndexEntries(t: Tables, limit: Option<int>, userFilter: Option<int>, i: int)
    requires 0 <= i < |Index(t, limit, userFilter)|
    ensures exists x :: x in SalesView(t.sales, ItemRows(t)) && Eligible(x, t.users, userFilter)
                        && Index(t, limit, userFilter)[i] == FormatSaleRow(x, t.users[x.userId], CountsOf(t.items, x.id))
  {
    var l := Listing(t, userFilter)[i];
    ListingMember(t, userFilter, l);
    assert Index(t, limit, userFilter)[i] == FormatSaleRow(l.row, t.users[l.row.userId], CountsOf(t.items, l.row.id));
  }

  /**
    `LIMIT` keeps the newest: an eligible sale is either listed, or the page
    is full and every listed sale comes before it in `paid_at DESC, id DESC`.
   */
  lemma IndexIsTopN(t: Tables, limit: Option<int>, userFilter: Option<int>, x: SaleRow)
    requires x in SalesView(t.sales, ItemRows(t)) && Eligible(x, t.users, userFilter)
    ensures var r := Index(t, limit, userFilter);
      || (exists i :: 0 <= i < |r| && r[i] == FormatSaleRow(x, t.users[x.userId], CountsOf(t.items, x.id)))
      || (&& |r| == ClampLimit(limit)
          && forall i :: 0 <= i < |r| ==> r[i].paidAt > x.paidAt || (r[i].paidAt == x.paidAt && r[i].id >= x.id))
  {
    var r := Index(t, limit, userFilter);
    var sorted := Listing(t, userFilter);
    var l := Listed(x, t.users[x.userId]);
    ListingMember(t, userFilter, l);
    var j :| 0 <= j < |sorted| && sorted[j] == l;
    if j < |r| {
      assert r[j] == Summary(t, l);
    } else {
      forall i | 0 <= i < |r| ensures r[i].paidAt > x.paidAt || (r[i].paidAt == x.paidAt && r[i].id >= x.id) {
        assert KeyLe(ListKey(sorted[i]), ListKey(sorted[j]));
        assert r[i] == Summary(t, sorted[i]);
      }
    }
  }

  /** No two entries of a listing are rows of the same sale. */
  predicate RowIdsDistinct(s: seq<Listed>) {
    forall i, j :: 0 <= i < j < |s| ==> s[i].row.id != s[j].row.id
  }

  predicate SaleRowIdsDistinct(rows: seq<SaleRow>) {
    forall i, j :: 0 <= i < j < |rows| ==> rows[i].id != rows[j].id
  }

  lemma {:induction false} SalesViewIds(sales: seq<Sale>, itemRows: seq<SaleItemRow>, x: SaleRow)
    requires x in SalesView(sales, itemRows)
    ensures exists k :: 0 <= k < |sales| && sales[k].id == x.id
  {
    var init := sales[..|sales| - 1];
    if x in SalesView(init, itemRows) {
      SalesViewIds(init, itemRows, x);
      var k :| 0 <= k < |init| && init[k].id == x.id;
      assert sales[k] == init[k];
    } else {
      assert sales[|sales| - 1].id == x.id;
    }
  }

  /** `GROUP BY s.id`: a primary key on `sales` gives one v_sales row per sale. */
  lemma {:induction false} SalesViewDistinct(sales: seq<Sale>, itemRows: seq<SaleItemRow>)
    requires forall i, j :: 0 <= i < j < |sales| ==> sales[i].id != sales[j].id
    ensures SaleRowIdsDistinct(SalesView(sales, itemRows))
  {
    if sales != [] {
      var init := sales[..|sales| - 1];
      var prev := SalesView(init, itemRows);
      var v := SalesView(sales, itemRows);
      SalesViewDistinct(init, itemRows);
      forall i, j | 0 <= i < j < |v| ensures v[i].id != v[j].id {
        if j >= |prev| {
          assert v[i] == prev[i];
          SalesViewIds(init, itemRows, prev[i]);
          var k :| 0 <= k < |init| && init[k].id == prev[i].id;
          assert sales[k] == init[k];
          assert sales[k].id != sales[|sales| - 1].id;
          assert v[j].id == sales[|sales| - 1].id;
        } else {
          assert v[i] == prev[i] && v[j] == prev[j];
          assert prev[i].id != prev[j].id;
        }
      }
    }
  }

  lemma {:induction false} JoinedDistinct(rows: seq<SaleRow>, users: map<int, User>, userFilter: Option<int>)
    requires SaleRowIdsDistinct(rows)
    ensures RowIdsDistinct(Joined(rows, users, userFilter))
  {
    if rows != [] {
      var init := rows[..|rows| - 1];
      var rest := Joined(init, users, userFilter);
      var r := Joined(rows, users, userFilter);
      JoinedDistinct(init, users, userFilter);
      forall i, j | 0 <= i < j < |r| ensures r[i].row.id != r[j].row.id {
        assert r[i] == rest[i];
        if j >= |rest| {
          var m :| 0 <= m < |init| && init[m] == rest[i].row;
          assert rows[m] == init[m];
          assert r[j].row == rows[|rows| - 1];
        } else {
          assert r[j] == rest[j];
        }
      }
    }
  }

  lemma CountTwo(s: seq<Listed>, i: int, j: int)
    requires 0 <= i < j < |s| && s[i] == s[j]
    ensures multiset(s)[s[i]] >= 2
  {
    assert s == s[..j] + s[j..];
    assert s[..j][i] == s[i];
    assert s[j..][0] == s[i];
    assert multiset(s) == multiset(s[..j]) + multiset(s[j..]);
  }

  lemma {:induction false} CountAtMostOne(s: seq<Listed>, x: Listed)
    requires RowIdsDistinct(s)
    ensures multiset(s)[x] <= 1
  {
    if s != [] {
      var init := s[..|s| - 1];
      assert RowIdsDistinct(init);
      CountAtMostOne(init, x);
      assert s == init + [s[|s| - 1]];
      if s[|s| - 1] == x {
        forall k | 0 <= k < |init| ensures init[k] != x {
          assert s[k].row.id != s[|s| - 1].row.id;
        }
        assert x !in multiset(init);
      }
    }
  }

  lemma PermutationDistinct(a: seq<Listed>, b: seq<Listed>)
    requires multiset(a) == multiset(b) && RowIdsDistinct(a)
    ensures RowIdsDistinct(b)
  {
    forall i, j | 0 <= i < j < |b| ensures b[i].row.id != b[j].row.id {
      CountAtMostOne(a, b[i]);
      if b[i] == b[j] {
        CountTwo(b, i, j);
        assert false;
      }
      assert b[i] in multiset(a) && b[j] in multiset(a);
      var p :| 0 <= p < |a| && a[p] == b[i];
      var q :| 0 <= q < |a| && a[q] == b[j];
      if p < q {
        assert a[p].row.id != a[q].row.id;
      } else {
        assert a[q].row.id != a[p].row.id;
      }
    }
  }

  /** With `sales.id` a primary key, no sale is listed twice. */
  lemma IndexIdsDistinct(t: Tables, limit: Option<int>, userFilter: Option<int>)
    requires SaleIdsUnique(t)
    ensures var r := Index(t, limit, userFilter);
      forall i, j :: 0 <= i < j < |r| ==> r[i].id != r[j].id
  {
    var view := SalesView(t.sales, ItemRows(t));
    var joined := Joined(view, t.users, userFilter);
    var sorted := Listing(t, userFilter);
    var r := Index(t, limit, userFilter);
    SalesViewDistinct(t.sales, ItemRows(t));
    JoinedDistinct(view, t.users, userFilter);
    PermutationDistinct(joined, sorted);
    forall i, j | 0 <= i < j < |r| ensures r[i].id != r[j].id {
      assert r[i] == Summary(t, sorted[i]) && r[j] == Summary(t, sorted[j]);
    }
  }

  // Membership facts about the views.

  lemma {:induction false} RowsOfSaleMember(rows: seq<SaleItemRow>, saleId: int, x: SaleItemRow)
    ensures x in RowsOfSale(rows, saleId) <==> x in rows && x.saleId == saleId
  {
    if rows != [] {
      RowsOfSaleMember(rows[..|rows| - 1], saleId, x);
      assert rows == rows[..|rows| - 1] + [rows[|rows| - 1]];
    }
  }

  lemma {:induction false} ItemsOfMember(items: seq<SaleItem>, saleId: int, x: SaleItem)
    ensures x in ItemsOf(items, saleId) <==> x in items && x.saleId == saleId
  {
    if items != [] {
      ItemsOfMember(items[..|items| - 1], saleId, x);
      assert items == items[..|items| - 1] + [items[|items| - 1]];
    }
  }

  /** Every v_sale_items row is the join of a stored item with the current price of its salable product. */
  lemma {:induction false} SaleItemsViewMember(items: seq<SaleItem>, salables: map<int, Salable>, x: SaleItemRow)
    requires x in SaleItemsView(items, salables)
    ensures exists k :: (0 <= k < |items| && items[k].salableId in salables &&
      x == ItemRow(items[k], salables[items[k].salableId]))
  {
    var init := items[..|items| - 1];
    if x in SaleItemsView(init, salables) {
      SaleItemsViewMember(init, salables, x);
      var k :| 0 <= k < |init| && init[k].salableId in salables && x == ItemRow(init[k], salables[init[k].salableId]);
      assert items[k] == init[k];
    } else {
      assert x == ItemRow(items[|items| - 1], salables[items[|items| - 1].salableId]);
    }
  }

  /**
    The view joins the price a salable product has NOW: every stored item
    whose salable product exists is reported at the current price.
   */
  lemma {:induction false} SaleItemsViewUsesCurrentPrice(items: seq<SaleItem>, salables: map<int, Salable>, k: int)
    requires 0 <= k < |items| && items[k].salableId in salables
    ensures ItemRow(items[k], salables[items[k].salableId]) in SaleItemsView(items, salables)
  {
    if k < |items| - 1 {
      SaleItemsViewUsesCurrentPrice(items[..|items| - 1], salables, k);
    }
  }

  /** A v_sales row always has at least one item row behind it. */
  lemma {:induction false} SalesViewMember(sales: seq<Sale>, itemRows: seq<SaleItemRow>, x: SaleRow)
    requires x in SalesView(sales, itemRows)
    ensures RowsOfSale(itemRows, x.id) != []
    ensures x.subtotal == SumSubtotals(RowsOfSale(itemRows, x.id))
    ensures x.total == SumTotals(RowsOfSale(itemRows, x.id))
  {
    if x !in SalesView(sales[..|sales| - 1], itemRows) {
      assert x.id == sales[|sales| - 1].id;
    } else {
      SalesViewMember(sales[..|sales| - 1], itemRows, x);
    }
  }

  /** A listed or found sale has at least one stored item. */
  lemma SaleRowHasItems(t: Tables, x: SaleRow)
    requires x in SalesView(t.sales, ItemRows(t))
    ensures ItemsOf(t.items, x.id) != []
  {
    SalesViewMember(t.sales, ItemRows(t), x);
    var r := RowsOfSale(ItemRows(t), x.id)[0];
    RowsOfSaleMember(ItemRows(t), x.id, r);
    SaleItemsViewMember(t.items, t.salables, r);
    var k :| 0 <= k < |t.items| && t.items[k].salableId in t.salables &&
      r == ItemRow(t.items[k], t.salables[t.items[k].salableId]);
    ItemsOfMember(t.items, x.id, t.items[k]);
  }

  lemma {:induction false} SumQuantitiesAtLeastCount(items: seq<SaleItem>)
    requires forall k :: 0 <= k < |items| ==> items[k].quantity >= 1
    ensures SumQuantities(items) >= |items|
  {
    if items != [] {
      SumQuantitiesAtLeastCount(items[..|items| - 1]);
    }
  }

  /** The counts of a sale that has items: one line at least, and at least one unit per line. */
  lemma CountsOfSale(t: Tables, saleId: int)
    requires ForeignKeys(t)
    requires ItemsOf(t.items, saleId) != []
    ensures CountsOf(t.items, saleId).Some?
    ensures var c := CountsOf(t.items, saleId).value;
      c.lineCount == |ItemsOf(t.items, saleId)| && c.lineCount >= 1 && c.unitsCount >= c.lineCount
  {
    var mine := ItemsOf(t.items, saleId);
    forall k | 0 <= k < |mine| ensures mine[k].quantity >= 1 {
      ItemsOfMember(t.items, saleId, mine[k]);
    }
    SumQuantitiesAtLeastCount(mine);
  }

  /** A sale without items has no v_sales row, so its detail lookup is "not found". */
  lemma ShowWithoutItemsNotFound(t: Tables, saleId: int)
    requires ItemsOf(t.items, saleId) == []
    ensures Show(t, saleId) == Err(SaleNotFound)
  {
    var found := FindSale(SalesView(t.sales, ItemRows(t)), t.users, saleId);
    if found.Some? {
      SaleRowHasItems(t, found.value);
    }
  }

  /** A found sale reports its line and unit counts. */
  lemma ShowCounts(t: Tables, saleId: int)
    requires ForeignKeys(t)
    requires Show(t, saleId).Ok?
    ensures var c := Show(t, saleId).value.sale.counts;
      c.Some? && c.value.lineCount >= 1 && c.value.unitsCount >= c.value.lineCount
  {
    var found := FindSale(SalesView(t.sales, ItemRows(t)), t.users, saleId);
    SaleRowHasItems(t, found.value);
    CountsOfSale(t, saleId);
  }

  /**
    Every listed sale has items and carries its counts: line_count is its
    number of items and units_count the sum of their quantities, which is at
    least line_count.
   */
  lemma IndexCounts(t: Tables, limit: Option<int>, userFilter: Option<int>, i: int)
    requires ForeignKeys(t)
    requires 0 <= i < |Index(t, limit, userFilter)|
    ensures var r := Index(t, limit, userFilter)[i];
      && ItemsOf(t.items, r.id) != []
      && r.counts.Some?
      && r.counts.value.lineCount == |ItemsOf(t.items, r.id)|
      && r.counts.value.unitsCount == SumQuantities(ItemsOf(t.items, r.id))
      && r.counts.value.unitsCount >= r.counts.value.lineCount >= 1
  {
    var joined := Joined(SalesView(t.sales, ItemRows(t)), t.users, userFilter);
    var sorted := Listing(t, userFilter);
    assert sorted[i] in multiset(joined);
    var k :| 0 <= k < |joined| && joined[k] == sorted[i];
    SaleRowHasItems(t, sorted[i].row);
    CountsOfSale(t, sorted[i].row.id);
  }

  // Agreement of the read side with the checkout pricing.

  /**
    For a price in cents and a non-negative rate, the reported item amounts
    equal the preview's: same subtotal, same tax, same total.
   */
  lemma ItemAgreesWithPreview(it: SaleItem, sp: Salable, productId: int, p: Product)
    requires sp.priceCents >= 0 && it.taxes >= 0.0
    ensures var d := FormatSaleItemRow(ItemRow(it, sp), productId, p);
      var pl := Pricing.PriceLine(Cents(sp.priceCents), it.quantity, it.taxes);
      d.subtotal == pl.subtotal && d.taxAmount == pl.taxAmount && d.total == pl.total
  {
    var price := Cents(sp.priceCents);
    var sub := Mul(price, it.quantity as real);
    var row := ItemRow(it, sp);
    assert price >= 0.0;
    Pricing.PriceLineOnCents(price, it.quantity, it.taxes);
    CentsTimesQuantity(price, it.quantity);
    R2OfCents(sub);
    assert row.total - row.subtotal == Mul(sub, it.taxes);
  }

  /** A reported item's total is its reported subtotal plus its reported tax. */
  lemma ItemReportIsConsistent(it: SaleItem, sp: Salable, productId: int, p: Product)
    requires sp.priceCents >= 0 && it.taxes >= 0.0
    ensures var d := FormatSaleItemRow(ItemRow(it, sp), productId, p);
      d.total == d.subtotal + d.taxAmount
  {
    ItemAgreesWithPreview(it, sp, productId, p);
    Pricing.PriceLineInCents(Cents(sp.priceCents), it.quantity, it.taxes);
  }

  /** Changing a salable product's price changes the reported subtotal of every past item of it. */
  lemma PriceChangeIsRetroactive(it: SaleItem, sp: Salable, newPriceCents: int)
    requires it.quantity >= 1 && newPriceCents != sp.priceCents
    ensures ItemRow(it, sp.(priceCents := newPriceCents)).subtotal != ItemRow(it, sp).subtotal
  {
    var q := it.quantity as real;
    assert Mul(Cents(newPriceCents), q) - Mul(Cents(sp.priceCents), q) == (Cents(newPriceCents) - Cents(sp.priceCents)) * q;
  }

  predicate WellPriced(row: SaleItemRow) {
    IsCents(row.subtotal) && row.subtotal >= 0.0 && row.total >= row.subtotal
  }

  lemma ItemRowWellPriced(it: SaleItem, sp: Salable)
    requires sp.priceCents >= 0 && it.taxes >= 0.0
    ensures WellPriced(ItemRow(it, sp))
  {
    var price := Cents(sp.priceCents);
    var sub := Mul(price, it.quantity as real);
    CentsTimesQuantity(price, it.quantity);
    assert price >= 0.0;
    assert sub >= 0.0;
    assert sub * it.taxes >= 0.0;
    assert Mul(sub, 1.0 + it.taxes) == sub + sub * it.taxes;
  }

  lemma {:induction false} SumsWellPriced(rows: seq<SaleItemRow>)
    requires forall k :: 0 <= k < |rows| ==> WellPriced(rows[k])
    ensures IsCents(SumSubtotals(rows)) && SumSubtotals(rows) >= 0.0
    ensures SumTotals(rows) >= SumSubtotals(rows)
  {
    if rows == [] {
      assert (100.0 * 0.0).Floor == 0;
    } else {
      SumsWellPriced(rows[..|rows| - 1]);
      CentsAdd(SumSubtotals(rows[..|rows| - 1]), rows[|rows| - 1].subtotal);
    }
  }

  predicate PricesNonNegative(t: Tables) {
    forall s :: s in t.salables ==> t.salables[s].priceCents >= 0
  }

  /** The unrounded sums of a v_sales row: a subtotal in cents, and a total not below it. */
  lemma SaleRowWellPriced(t: Tables, x: SaleRow)
    requires ForeignKeys(t) && PricesNonNegative(t)
    requires x in SalesView(t.sales, ItemRows(t))
    ensures IsCents(x.subtotal) && x.subtotal >= 0.0 && x.total >= x.subtotal
  {
    SalesViewMember(t.sales, ItemRows(t), x);
    var mine := RowsOfSale(ItemRows(t), x.id);
    forall k | 0 <= k < |mine| ensures WellPriced(mine[k]) {
      RowsOfSaleMember(ItemRows(t), x.id, mine[k]);
      SaleItemsViewMember(t.items, t.salables, mine[k]);
      var j :| 0 <= j < |t.items| && t.items[j].salableId in t.salables &&
        mine[k] == ItemRow(t.items[j], t.salables[t.items[j].salableId]);
      ItemRowWellPriced(t.items[j], t.salables[t.items[j].salableId]);
    }
    SumsWellPriced(mine);
  }

  /** formatSaleRow of well-priced sums: total == subtotal + tax_total, all in cents. */
  lemma FormatSaleRowIsConsistent(x: SaleRow, user: User, counts: Option<Counts>)
    requires IsCents(x.subtotal) && x.subtotal >= 0.0 && x.total >= x.subtotal
    ensures var s := FormatSaleRow(x, user, counts);
      s.subtotal == x.subtotal && s.total == s.subtotal + s.taxTotal
  {
    R2OfCents(x.subtotal);
    R2ShiftCents(x.subtotal, x.total - x.subtotal);
  }

  /**
    The reported sale header is consistent: total == subtotal + tax_total,
    where tax_total is round(total - subtotal) of the unrounded sums, and the
    subtotal is the exact sum of the item subtotals.
   */
  lemma SaleReportIsConsistent(t: Tables, x: SaleRow)
    requires ForeignKeys(t) && PricesNonNegative(t)
    requires x in SalesView(t.sales, ItemRows(t)) && x.userId in t.users
    ensures var s := FormatSaleRow(x, t.users[x.userId], CountsOf(t.items, x.id));
      s.subtotal == SumSubtotals(RowsOfSale(ItemRows(t), x.id)) && s.total == s.subtotal + s.taxTotal
  {
    SalesViewMember(t.sales, ItemRows(t), x);
    SaleRowWellPriced(t, x);
    FormatSaleRowIsConsistent(x, t.users[x.userId], CountsOf(t.items, x.id));
  }

  /**
    The sale total is rounded once over unrounded line totals, so it can
    differ from the sum of the preview's line totals: two lines of 0.05 at a
    10% rate are previewed at 0.06 each (0.12 in all) and reported at 0.11.
   */
  lemma SaleTotalCanDifferFromPreview()
    ensures var sp := Salable(1, 5);
      var rows := [ItemRow(SaleItem(1, 1, 1, 1, 0.1), sp), ItemRow(SaleItem(2, 1, 1, 1, 0.1), sp)];
      var line := Pricing.PriceLine(Cents(5), 1, 0.1);
      R2(SumTotals(rows)) == 0.11 && line.total == 0.06 && R2(line.total + line.total) == 0.12
  {
    var sp := Salable(1, 5);
    var a := ItemRow(SaleItem(1, 1, 1, 1, 0.1), sp);
    var b := ItemRow(SaleItem(2, 1, 1, 1, 0.1), sp);
    assert a.total == 0.055 && b.total == 0.055;
    var rows := [a, b];
    assert rows[..1] == [a];
    assert [a][..0] == [];
    assert SumTotals([a]) == 0.055;
    assert SumTotals(rows) == 0.11;
    assert RoundHalfAway(100.0 * 0.11) == 11;
    var line := Pricing.PriceLine(Cents(5), 1, 0.1);
    assert Mul(Cents(5), 1 as real) == 0.05;
    assert RoundHalfAway(100.0 * 0.05) == 5;
    assert line.subtotal == 0.05;
    assert Mul(0.05, 0.1) == 0.005;
    assert RoundHalfAway(100.0 * 0.005) == 1;
    assert line.taxAmount == 0.01;
    assert RoundHalfAway(100.0 * 0.06) == 6;
    assert line.total == 0.06;
    assert RoundHalfAway(100.0 * 0.12) == 12;
  }
}
