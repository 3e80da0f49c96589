/** The three report handlers of src/controllers/ReportController.js: the filter objects
    they build, the per-product accumulation and the commission rows. The collection is
    a sequence of documents; `find` is `Where` over it. */
module ReportController {
  import opened Common
  import opened SaleModel
  import UserController

  const SalesReportError: string := "Erro ao buscar relatório de vendas"
  const ProductsReportError: string := "Erro ao gerar relatório de produtos"
  const CommissionsReportError: string := "Erro ao gerar relatório de comissões"

  // ---------------------------------------------------------------------------
  // Filter objects

  /** `{ $gte, $lte }` on `date`. */
  datatype DateRange = DateRange(gte: Option<int>, lte: Option<int>)
  /** `user: id` or `user: { $in: ids }`. */
  datatype UserFilter = UserEq(id: Id) | UserIn(ids: seq<Id>)
  /** The query object; a None field is a property that was never set. */
  datatype Query = Query(date: Option<DateRange>, user: Option<UserFilter>, customer: Option<Id>)

  /** `userId` of the commission report: one query-string value, or several. */
  datatype UserParam = Single(id: Id) | Many(ids: seq<Id>)

  /** What MongoDB's `find(query)` selects. */
  predicate Matches(q: Query, s: Sale)
  {
    && (q.date.Some? && q.date.value.gte.Some? ==> s.date >= q.date.value.gte.value)
    && (q.date.Some? && q.date.value.lte.Some? ==> s.date <= q.date.value.lte.value)
    && (q.user.Some? ==> match q.user.value
                         case UserEq(u) => s.user == u
                         case UserIn(us) => s.user in us)
    && (q.customer.Some? ==> s.customer == q.customer.value)
  }

  /** The date window given by the two (possibly absent) bounds. */
  predicate InWindow(startDate: Option<int>, endDate: Option<int>, date: int)
  {
    (startDate.Some? ==> date >= startDate.value) && (endDate.Some? ==> date <= endDate.value)
  }

  /** `getSalesReport`, lines 13-34. None: `query.date.$lte` was assigned while
      `query.date` was undefined, which throws. */
  method SalesQuery(startDate: Option<int>, endDate: Option<int>, userId: Option<Id>, customerId: Option<Id>)
    returns (q: Option<Query>)
    ensures q.None? <==> endDate.Some? && startDate.None?
    ensures q.Some? ==> forall s :: Matches(q.value, s) <==>
              InWindow(startDate, endDate, s.date) &&
              (userId.Some? ==> s.user == userId.value) &&
              (customerId.Some? ==> s.customer == customerId.value)
  {
    var query := Query(None, None, None);
    if startDate.Some? {
      query := query.(date := Some(DateRange(Some(startDate.value), None)));
    }
    if endDate.Some? {
      if query.date.None? {
        return None;
      }
      query := query.(date := Some(query.date.value.(lte := Some(endDate.value))));
    }
    if userId.Some? {
      query := query.(user := Some(UserEq(userId.value)));
    }
    if customerId.Some? {
      query := query.(customer := Some(customerId.value));
    }
    q := Some(query);
  }

  /** `getProductsReport`, lines 51-66: the same date handling, and a user filter. */
  method ProductsQuery(startDate: Option<int>, endDate: Option<int>, userId: Option<Id>)
    returns (q: Option<Query>)
    ensures q.None? <==> endDate.Some? && startDate.None?
    ensures q.Some? ==> forall s :: Matches(q.value, s) <==>
              InWindow(startDate, endDate, s.date) && (userId.Some? ==> s.user == userId.value)
  {
    var query := Query(None, None, None);
    if startDate.Some? {
      query := query.(date := Some(DateRange(Some(startDate.value), None)));
    }
    if endDate.Some? {
      if query.date.None? {
        return None;
      }
      query := query.(date := Some(query.date.value.(lte := Some(endDate.value))));
    }
    if userId.Some? {
      query := query.(user := Some(UserEq(userId.value)));
    }
    q := Some(query);
  }

  /** The ids of a `userId` parameter: a scalar becomes a one-element list. */
  function UserIds(p: UserParam): (ids: seq<Id>)
    ensures p.Single? ==> ids == [p.id]
    ensures p.Many? ==> ids == p.ids
  {
    match p
    case Single(u) => [u]
    case Many(us) => us
  }

  /** `getCommissionsReport`, lines 133-150: the date object is created when missing, so
      this query is always built. */
  method CommissionsQuery(startDate: Option<int>, endDate: Option<int>, userId: Option<UserParam>)
    returns (q: Query)
    ensures forall s :: Matches(q, s) <==>
              InWindow(startDate, endDate, s.date) && (userId.Some? ==> s.user in UserIds(userId.value))
    ensures userId.Some? && userId.value.Single? ==> q.user == Some(UserIn([userId.value.id]))
  {
    q := Query(None, None, None);
    if startDate.Some? {
      q := q.(date := Some(DateRange(Some(startDate.value), None)));
    }
    if endDate.Some? {
      var range := if q.date.Some? then q.date.value else DateRange(None, None);
      q := q.(date := Some(range.(lte := Some(endDate.value))));
    }
    if userId.Some? {
      var ids := if userId.value.Many? then userId.value.ids else [userId.value.id];
      q := q.(user := Some(UserIn(ids)));
    }
  }

  /** `Sale.find(query)`. */
  function Find(db: seq<SaleDoc>, q: Query): (r: seq<SaleDoc>)
    ensures forall d :: d in r <==> d in db && Matches(q, d.sale)
  {
    Where(db, (d: SaleDoc) => Matches(q, d.sale))
  }

  // ---------------------------------------------------------------------------
  // Sales report

  /** `getSalesReport`: the sales the filters select, or 500. */
  method GetSalesReport(db: seq<SaleDoc>, startDate: Option<int>, endDate: Option<int>,
                        userId: Option<Id>, customerId: Option<Id>)
    returns (r: Outcome<seq<SaleDoc>>)
    ensures r.Fail? <==> endDate.Some? && startDate.None?
    ensures r.Fail? ==> r == Fail(500, SalesReportError)
    ensures r.Ok? ==> forall d :: d in r.value <==>
              d in db && InWindow(startDate, endDate, d.sale.date) &&
              (userId.Some? ==> d.sale.user == userId.value) &&
              (customerId.Some? ==> d.sale.customer == customerId.value)
  {
    var q := SalesQuery(startDate, endDate, userId, customerId);
    if q.None? {
      return Fail(500, SalesReportError);
    }
    r := Ok(Find(db, q.value));
  }

  // ---------------------------------------------------------------------------
  // Products report

  /** The populated fields of a product (src/models/Product.js) once its cost is known. */
  datatype Product = Product(name: string, cost: int)

  /** A stored product document: `cost` is optional in the schema and the product
      controller saves whatever the body sends. */
  datatype StoredProduct = StoredProduct(name: string, cost: Option<int>)

  /** The products that have a cost, as the report reads them. */
  function Priced(products: map<Id, StoredProduct>): (c: map<Id, Product>)
    ensures forall p :: p in c <==> p in products && products[p].cost.Some?
    ensures forall p :: p in c ==> c[p] == Product(products[p].name, products[p].cost.value)
  {
    map p | p in products && products[p].cost.Some? :: Product(products[p].name, products[p].cost.value)
  }

  /** One entry of `productsData`. */
  datatype ProductRow = ProductRow(id: Id, name: string, soldAmount: int, unitCost: int, totalCost: int,
                                   totalSales: int, resultValue: int, resultPercent: Ratio)

  /** The `productsData` object: its entries, and their keys in insertion order (the
      order `Object.values` lists them in). */
  datatype ProductsData = ProductsData(rows: map<Id, ProductRow>, order: seq<Id>)

  const NoProducts: ProductsData := ProductsData(map[], [])

  /** `populate('items.product')` finds every item's product. */
  predicate Resolvable(items: seq<Item>, catalogue: map<Id, Product>)
  {
    forall i :: 0 <= i < |items| ==> items[i].product in catalogue
  }

  /** The body of the inner `forEach`, lines 75-92: the item's product gets an entry
      with its name and cost on first sight, appended to the key order; that entry gains
      the item's quantity, cost and price; every other entry stays. */
  function Accumulate(d: ProductsData, it: Item, p: Product): (r: ProductsData)
    ensures r.rows.Keys == d.rows.Keys + {it.product}
    ensures forall q :: q in d.rows && q != it.product ==> r.rows[q] == d.rows[q]
    ensures r.order == if it.product in d.rows then d.order else d.order + [it.product]
    ensures var row, before := r.rows[it.product], it.product in d.rows;
            && row.id == (if before then d.rows[it.product].id else it.product)
            && row.name == (if before then d.rows[it.product].name else p.name)
            && row.unitCost == (if before then d.rows[it.product].unitCost else p.cost)
            && row.soldAmount == (if before then d.rows[it.product].soldAmount else 0) + it.quantity
            && row.totalCost == (if before then d.rows[it.product].totalCost else 0) + it.quantity * p.cost
            && row.totalSales == (if before then d.rows[it.product].totalSales else 0) + it.totalPrice
            && row.resultValue == row.totalSales - row.totalCost
  {
    var base := if it.product in d.rows then d.rows[it.product]
                else ProductRow(it.product, p.name, 0, p.cost, 0, 0, 0, Finite(0.0));
    var sold := base.soldAmount + it.quantity;
    var cost := base.totalCost + it.quantity * p.cost;
    var sales := base.totalSales + it.totalPrice;
    ProductsData(d.rows[it.product := base.(soldAmount := sold, totalCost := cost, totalSales := sales,
                                            resultValue := sales - cost)],
                 if it.product in d.rows then d.order else d.order + [it.product])
  }

  /** `productsData` after the items have been processed in order: the key order lists
      exactly the entries, each entry sits under its own product id, and its result is
      its sales less its cost. */
  function Accumulated(items: seq<Item>, catalogue: map<Id, Product>): (r: ProductsData)
    requires Resolvable(items, catalogue)
    ensures forall q :: q in r.order <==> q in r.rows
    ensures forall q :: q in r.rows ==> r.rows[q].id == q && r.rows[q].resultValue == r.rows[q].totalSales - r.rows[q].totalCost
  {
    if items == [] then NoProducts
    else
      var last := items[|items| - 1];
      Accumulate(Accumulated(items[..|items| - 1], catalogue), last, catalogue[last.product])
  }

  function SoldOf(items: seq<Item>, p: Id): int
  {
    if items == [] then 0
    else SoldOf(items[..|items| - 1], p) + (if items[|items| - 1].product == p then items[|items| - 1].quantity else 0)
  }

  function SalesOf(items: seq<Item>, p: Id): int
  {
    if items == [] then 0
    else SalesOf(items[..|items| - 1], p) + (if items[|items| - 1].product == p then items[|items| - 1].totalPrice else 0)
  }

  predicate Occurs(items: seq<Item>, p: Id)
  {
    exists i :: 0 <= i < |items| && items[i].product == p
  }

  predicate Distinct(s: seq<Id>)
  {
    forall i, j :: 0 <= i < j < |s| ==> s[i] != s[j]
  }

  /** The position of the first item of product `p`. */
  ghost function FirstIndex(items: seq<Item>, p: Id): (k: nat)
    requires Occurs(items, p)
    ensures k < |items| && items[k].product == p
    ensures forall j :: 0 <= j < k ==> items[j].product != p
  {
    var init := items[..|items| - 1];
    OccursStep(items, p);
    if Occurs(init, p) then FirstIndex(init, p) else |items| - 1
  }

  /** What an entry holds after the accumulation. */
  ghost predicate RowFor(row: ProductRow, p: Id, items: seq<Item>, prod: Product)
  {
    && row.id == p && row.name == prod.name && row.unitCost == prod.cost
    && row.soldAmount == SoldOf(items, p)
    && row.totalCost == SoldOf(items, p) * prod.cost
    && row.totalSales == SalesOf(items, p)
    && row.resultValue == row.totalSales - row.totalCost
  }

  /** One entry per product that occurs (listed once, in first-occurrence order), with
      name and unit cost of that product and the sums of its quantities, costs and
      prices; `resultValue == totalSales - totalCost` after every item. */
  lemma {:induction false} AccumulatedRows(items: seq<Item>, catalogue: map<Id, Product>)
    requires Resolvable(items, catalogue)
    ensures var d := Accumulated(items, catalogue);
            && (forall p :: p in d.rows <==> Occurs(items, p))
            && (forall p :: p in d.rows ==> RowFor(d.rows[p], p, items, catalogue[p]))
            && Distinct(d.order)
            && (forall p :: p in d.order <==> p in d.rows)
            && (forall i, j :: 0 <= i < j < |d.order| ==> FirstIndex(items, d.order[i]) < FirstIndex(items, d.order[j]))
  {
    if items != [] {
      var init := items[..|items| - 1];
      var last := items[|items| - 1];
      assert Resolvable(init, catalogue);
      AccumulatedRows(init, catalogue);
      var d0 := Accumulated(init, catalogue);
      var d := Accumulated(items, catalogue);
      assert d == Accumulate(d0, last, catalogue[last.product]);
      forall p ensures p in d.rows <==> Occurs(items, p) {
        OccursStep(items, p);
      }
      forall p | p in d.rows ensures RowFor(d.rows[p], p, items, catalogue[p]) {
        if p != last.product {
          assert d.rows[p] == d0.rows[p];
        } else {
          if p !in d0.rows {
            NotOccurs(init, p);
          }
          LastItemRow(items, catalogue, d0);
        }
      }
      forall i, j | 0 <= i < j < |d.order| ensures FirstIndex(items, d.order[i]) < FirstIndex(items, d.order[j]) {
        OrderStep(items, catalogue, d0, i, j);
      }
    }
  }

  /** One step of the key order: keys already listed keep their first positions, and a
      new key comes from the last item, after all of them. */
  lemma OrderStep(items: seq<Item>, catalogue: map<Id, Product>, d0: ProductsData, i: nat, j: nat)
    requires items != [] && Resolvable(items, catalogue)
    requires var init := items[..|items| - 1];
             && (forall p :: p in d0.rows <==> Occurs(init, p))
             && (forall p :: p in d0.order <==> p in d0.rows)
             && (forall i, j :: 0 <= i < j < |d0.order| ==> FirstIndex(init, d0.order[i]) < FirstIndex(init, d0.order[j]))
    requires var last := items[|items| - 1];
             var d := Accumulate(d0, last, catalogue[last.product]);
             && (forall p :: p in d.order ==> Occurs(items, p))
             && i < j < |d.order|
    ensures var last := items[|items| - 1];
            var d := Accumulate(d0, last, catalogue[last.product]);
            FirstIndex(items, d.order[i]) < FirstIndex(items, d.order[j])
  {
    var init, last := items[..|items| - 1], items[|items| - 1];
    var d := Accumulate(d0, last, catalogue[last.product]);
    assert d0.order[i] in d0.order;
    assert Occurs(init, d0.order[i]);
    assert FirstIndex(items, d0.order[i]) == FirstIndex(init, d0.order[i]);
    if j < |d0.order| {
      assert d0.order[j] in d0.order;
      assert FirstIndex(items, d0.order[j]) == FirstIndex(init, d0.order[j]);
    } else {
      assert d.order[j] == last.product && !Occurs(init, last.product);
    }
  }

  lemma OccursStep(items: seq<Item>, p: Id)
    requires items != []
    ensures Occurs(items, p) <==> Occurs(items[..|items| - 1], p) || items[|items| - 1].product == p
  {
    var init := items[..|items| - 1];
    if Occurs(items, p) && items[|items| - 1].product != p {
      var i :| 0 <= i < |items| && items[i].product == p;
      assert init[i].product == p;
    }
    if Occurs(init, p) {
      var i :| 0 <= i < |init| && init[i].product == p;
      assert items[i].product == p;
    }
  }

  /** The entry of the last item's product after the last item, given the entries
      before it. */
  lemma LastItemRow(items: seq<Item>, catalogue: map<Id, Product>, d0: ProductsData)
    requires items != [] && Resolvable(items, catalogue)
    requires var init, p := items[..|items| - 1], items[|items| - 1].product;
             if p in d0.rows then RowFor(d0.rows[p], p, init, catalogue[p])
             else SoldOf(init, p) == 0 && SalesOf(init, p) == 0
    ensures var last := items[|items| - 1];
            var d := Accumulate(d0, last, catalogue[last.product]);
            RowFor(d.rows[last.product], last.product, items, catalogue[last.product])
  {
    var init, last := items[..|items| - 1], items[|items| - 1];
    var prod := catalogue[last.product];
    var sold := SoldOf(init, last.product);
    assert SoldOf(items, last.product) == sold + last.quantity;
    assert (sold + last.quantity) * prod.cost == sold * prod.cost + last.quantity * prod.cost;
  }

  /** A product that does not occur has nothing summed for it. */
  lemma {:induction false} NotOccurs(items: seq<Item>, p: Id)
    requires !Occurs(items, p)
    ensures SoldOf(items, p) == 0 && SalesOf(items, p) == 0
  {
    if items != [] {
      NotOccurs(items[..|items| - 1], p);
    }
  }

  /** The loop at lines 97-104 on one entry, without the `toFixed(2)` rounding. */
  function Finalize(row: ProductRow): (r: ProductRow)
    ensures r.resultPercent == PercentOf(row.resultValue, row.totalCost)
    ensures r.(resultPercent := row.resultPercent) == row
  {
    row.(resultPercent := PercentOf(row.resultValue, row.totalCost))
  }

  /** The entries of `productsData` listed in the order of `order`. */
  function ValuesIn(order: seq<Id>, rows: map<Id, ProductRow>): (r: seq<ProductRow>)
    requires forall i :: 0 <= i < |order| ==> order[i] in rows
    ensures |r| == |order| && forall i :: 0 <= i < |order| ==> r[i] == rows[order[i]]
  {
    seq(|order|, i requires 0 <= i < |order| => rows[order[i]])
  }

  /** The selection at lines 107-120. */
  function SelectProduct(rows: map<Id, ProductRow>, order: seq<Id>, productId: Option<Id>): (r: seq<ProductRow>)
    requires forall i :: 0 <= i < |order| ==> order[i] in rows
    ensures productId.Some? && productId.value in rows ==> r == [rows[productId.value]]
    ensures productId.Some? && productId.value !in rows ==> r == []
    ensures productId.None? ==> r == ValuesIn(order, rows)
  {
    if productId.Some? then
      if productId.value in rows then [rows[productId.value]] else []
    else ValuesIn(order, rows)
  }

  /** The filter of `getProductsReport`, for a query that did not throw. */
  predicate ProductsFilter(startDate: Option<int>, endDate: Option<int>, userId: Option<Id>, d: SaleDoc)
  {
    InWindow(startDate, endDate, d.sale.date) && (userId.Some? ==> d.sale.user == userId.value)
  }

  /** The sales `getProductsReport` aggregates. */
  function ProductsSelection(db: seq<SaleDoc>, startDate: Option<int>, endDate: Option<int>, userId: Option<Id>): seq<SaleDoc>
  {
    Where(db, (d: SaleDoc) => ProductsFilter(startDate, endDate, userId, d))
  }

  lemma FindIsProductsSelection(db: seq<SaleDoc>, q: Query, startDate: Option<int>, endDate: Option<int>, userId: Option<Id>)
    requires forall s :: Matches(q, s) <==> InWindow(startDate, endDate, s.date) && (userId.Some? ==> s.user == userId.value)
    ensures Find(db, q) == ProductsSelection(db, startDate, endDate, userId)
  {
    WhereExtensional(db, (d: SaleDoc) => Matches(q, d.sale), (d: SaleDoc) => ProductsFilter(startDate, endDate, userId, d));
  }

  /** The per-product accumulation, lines 72-94. Reading `_id` of an item whose product
      was not found (populated as null) throws; that ends in the 500 branch. */
  method AccumulateProducts(sales: seq<SaleDoc>, catalogue: map<Id, Product>) returns (d: Option<ProductsData>)
    ensures d.Some? <==> Resolvable(Flatten(sales), catalogue)
    ensures d.Some? ==> d.value == Accumulated(Flatten(sales), catalogue)
  {
    var data := NoProducts;
    var i := 0;
    while i < |sales|
      invariant 0 <= i <= |sales|
      invariant Resolvable(Flatten(sales[..i]), catalogue)
      invariant data == Accumulated(Flatten(sales[..i]), catalogue)
    {
      var items := sales[i].sale.items;
      var j := 0;
      assert sales[..i + 1][..i] == sales[..i];
      assert Flatten(sales[..i + 1]) == Flatten(sales[..i]) + items;
      assert Flatten(sales[..i]) + items[..0] == Flatten(sales[..i]);
      while j < |items|
        invariant 0 <= j <= |items|
        invariant Resolvable(Flatten(sales[..i]) + items[..j], catalogue)
        invariant data == Accumulated(Flatten(sales[..i]) + items[..j], catalogue)
      {
        var it := items[j];
        var done := Flatten(sales[..i]) + items[..j];
        if it.product !in catalogue {
          FlattenResolvable(sales, i, j);
          return None;
        }
        AccumulateStep(Flatten(sales[..i]), items, j, catalogue, data);
        data := Accumulate(data, it, catalogue[it.product]);
        j := j + 1;
      }
      assert items[..j] == items;
      i := i + 1;
    }
    assert sales[..i] == sales;
    d := Some(data);
  }

  /** One pass of the inner loop: a resolvable item extends the accumulation by one. */
  lemma AccumulateStep(done: seq<Item>, items: seq<Item>, j: nat, catalogue: map<Id, Product>, data: ProductsData)
    requires j < |items| && items[j].product in catalogue
    requires Resolvable(done + items[..j], catalogue) && data == Accumulated(done + items[..j], catalogue)
    ensures Resolvable(done + items[..j + 1], catalogue)
    ensures Accumulate(data, items[j], catalogue[items[j].product]) == Accumulated(done + items[..j + 1], catalogue)
  {
    var prev := done + items[..j];
    assert done + items[..j + 1] == prev + [items[j]];
    assert (prev + [items[j]])[..|prev|] == prev;
  }

  /** An item of sale `i` whose product is unknown leaves the whole selection
      unresolvable. */
  lemma FlattenResolvable(sales: seq<SaleDoc>, i: nat, j: nat)
    requires i < |sales| && j < |sales[i].sale.items|
    ensures forall c: map<Id, Product> :: sales[i].sale.items[j].product !in c ==> !Resolvable(Flatten(sales), c)
  {
    forall c: map<Id, Product> | sales[i].sale.items[j].product !in c ensures !Resolvable(Flatten(sales), c) {
      var k := FlattenIndex(sales, i, j);
    }
  }

  /** Where item `j` of sale `i` sits in the flattened list. */
  lemma {:induction false} FlattenIndex(sales: seq<SaleDoc>, i: nat, j: nat) returns (k: nat)
    requires i < |sales| && j < |sales[i].sale.items|
    ensures k < |Flatten(sales)| && Flatten(sales)[k] == sales[i].sale.items[j]
  {
    var init := sales[..|sales| - 1];
    if i == |sales| - 1 {
      k := |Flatten(init)| + j;
    } else {
      k := FlattenIndex(init, i, j);
    }
  }

  /** Every entry finalised. */
  function FinalRows(d: ProductsData): (rows: map<Id, ProductRow>)
    ensures rows.Keys == d.rows.Keys
    ensures forall p :: p in rows ==> rows[p] == Finalize(d.rows[p])
  {
    map p | p in d.rows :: Finalize(d.rows[p])
  }

  /** The loop at lines 97-104 over every entry. */
  method FinalizeAll(data: ProductsData) returns (rows: map<Id, ProductRow>)
    requires Distinct(data.order) && forall p :: p in data.order <==> p in data.rows
    ensures rows == FinalRows(data)
  {
    rows := data.rows;
    var k := 0;
    while k < |data.order|
      invariant 0 <= k <= |data.order|
      invariant rows.Keys == data.rows.Keys
      invariant forall p :: p in rows && p in data.order[..k] ==> rows[p] == Finalize(data.rows[p])
      invariant forall p :: p in rows && p !in data.order[..k] ==> rows[p] == data.rows[p]
    {
      var p := data.order[k];
      assert forall q :: q in data.order[..k + 1] <==> q in data.order[..k] || q == p;
      assert p !in data.order[..k];
      rows := rows[p := Finalize(rows[p])];
      k := k + 1;
    }
    assert data.order[..k] == data.order;
  }

  /** The report for the selected sales: entries finalised, then selected by product id. */
  ghost function ProductsReportOf(sales: seq<SaleDoc>, catalogue: map<Id, Product>, productId: Option<Id>)
    : (r: seq<ProductRow>)
    requires Resolvable(Flatten(sales), catalogue)
    ensures productId.Some? ==> |r| <= 1 && forall i :: 0 <= i < |r| ==> r[i].id == productId.value
    ensures productId.None? ==> |r| == |Accumulated(Flatten(sales), catalogue).order|
    ensures forall i :: 0 <= i < |r| ==> r[i].resultPercent == PercentOf(r[i].resultValue, r[i].totalCost)
  {
    var d := Accumulated(Flatten(sales), catalogue);
    SelectShape(d, productId);
    SelectProduct(FinalRows(d), d.order, productId)
  }

  lemma SelectShape(d: ProductsData, productId: Option<Id>)
    requires forall q :: q in d.order <==> q in d.rows
    requires forall q :: q in d.rows ==> d.rows[q].id == q
    ensures var r := SelectProduct(FinalRows(d), d.order, productId);
            && (productId.Some? ==> |r| <= 1 && forall i :: 0 <= i < |r| ==> r[i].id == productId.value)
            && (productId.None? ==> |r| == |d.order|)
            && forall i :: 0 <= i < |r| ==> r[i].resultPercent == PercentOf(r[i].resultValue, r[i].totalCost)
  {
  }

  /** The finalised entries and their order, as the accumulation leaves them. */
  ghost predicate WellFormedReport(rows: map<Id, ProductRow>, order: seq<Id>, items: seq<Item>, catalogue: map<Id, Product>)
  {
    && (forall p :: p in rows <==> Occurs(items, p))
    && (forall p :: p in rows ==>
          p in catalogue && RowFor(rows[p], p, items, catalogue[p]) &&
          rows[p].resultPercent == PercentOf(rows[p].resultValue, rows[p].totalCost))
    && Distinct(order)
    && (forall p :: p in order <==> p in rows)
  }

  lemma {:induction false} FinalRowsWellFormed(items: seq<Item>, catalogue: map<Id, Product>)
    requires Resolvable(items, catalogue)
    ensures var d := Accumulated(items, catalogue);
            WellFormedReport(FinalRows(d), d.order, items, catalogue)
  {
    AccumulatedRows(items, catalogue);
    var d := Accumulated(items, catalogue);
    var rows := FinalRows(d);
    forall p | p in rows
      ensures p in catalogue && RowFor(rows[p], p, items, catalogue[p])
      ensures rows[p].resultPercent == PercentOf(rows[p].resultValue, rows[p].totalCost)
    {
      var i :| 0 <= i < |items| && items[i].product == p;
      FinalizeKeepsRow(d.rows[p], p, items, catalogue[p]);
    }
  }

  lemma FinalizeKeepsRow(row: ProductRow, p: Id, items: seq<Item>, prod: Product)
    requires RowFor(row, p, items, prod)
    ensures RowFor(Finalize(row), p, items, prod)
  {
  }

  /** The selection keeps the entries' properties: with a product id, that product's
      entry if it was sold and nothing otherwise; without one, one entry per product sold. */
  lemma {:induction false} SelectWellFormed(rows: map<Id, ProductRow>, order: seq<Id>, items: seq<Item>,
                                            catalogue: map<Id, Product>, productId: Option<Id>)
    requires WellFormedReport(rows, order, items, catalogue)
    ensures var r := SelectProduct(rows, order, productId);
            && (productId.Some? ==> (r != [] <==> Occurs(items, productId.value)))
            && (productId.Some? && r != [] ==> |r| == 1 && r[0].id == productId.value)
            && (forall i :: 0 <= i < |r| ==>
                  r[i].id in catalogue && RowFor(r[i], r[i].id, items, catalogue[r[i].id]) &&
                  r[i].resultPercent == PercentOf(r[i].resultValue, r[i].totalCost))
            && (forall i, j :: 0 <= i < j < |r| ==> r[i].id != r[j].id)
            && (productId.None? ==> forall p :: Occurs(items, p) <==> exists i :: 0 <= i < |r| && r[i].id == p)
  {
    var r := SelectProduct(rows, order, productId);
    if productId.None? {
      assert forall i :: 0 <= i < |r| ==> r[i] == rows[order[i]] && r[i].id == order[i];
      forall p | Occurs(items, p) ensures exists i :: 0 <= i < |r| && r[i].id == p {
        var i :| 0 <= i < |order| && order[i] == p;
        assert r[i].id == p;
      }
    }
  }

  /** What the products report holds for the selected sales. */
  lemma {:induction false} ProductsReportContents(sales: seq<SaleDoc>, catalogue: map<Id, Product>, productId: Option<Id>)
    requires Resolvable(Flatten(sales), catalogue)
    ensures var items := Flatten(sales);
            var r := ProductsReportOf(sales, catalogue, productId);
            && (productId.Some? ==> (r != [] <==> Occurs(items, productId.value)))
            && (productId.Some? && r != [] ==> |r| == 1 && r[0].id == productId.value)
            && (forall i :: 0 <= i < |r| ==>
                  r[i].id in catalogue && RowFor(r[i], r[i].id, items, catalogue[r[i].id]) &&
                  r[i].resultPercent == PercentOf(r[i].resultValue, r[i].totalCost))
            && (forall i, j :: 0 <= i < j < |r| ==> r[i].id != r[j].id)
            && (productId.None? ==> forall p :: Occurs(items, p) <==> exists i :: 0 <= i < |r| && r[i].id == p)
  {
    var items := Flatten(sales);
    FinalRowsWellFormed(items, catalogue);
    var d := Accumulated(items, catalogue);
    SelectWellFormed(FinalRows(d), d.order, items, catalogue, productId);
  }

  /** `getProductsReport`. A sold item whose product is missing throws at line 75; one whose
      product has no cost makes `unitCost.toFixed` throw at line 100; both end in the 500
      of the catch block. */
  method GetProductsReport(db: seq<SaleDoc>, startDate: Option<int>, endDate: Option<int>, userId: Option<Id>,
                           productId: Option<Id>, products: map<Id, StoredProduct>)
    returns (r: Outcome<seq<ProductRow>>)
    ensures var items := Flatten(ProductsSelection(db, startDate, endDate, userId));
            r.Fail? <==> || (endDate.Some? && startDate.None?)
                         || (exists i :: 0 <= i < |items| && items[i].product !in products)
                         || (exists i :: 0 <= i < |items| && items[i].product in products &&
                                         products[items[i].product].cost.None?)
    ensures r.Fail? ==> r == Fail(500, ProductsReportError)
    ensures r.Ok? ==> r.value == ProductsReportOf(ProductsSelection(db, startDate, endDate, userId), Priced(products), productId)
  {
    var catalogue := Priced(products);
    var q := ProductsQuery(startDate, endDate, userId);
    if q.None? {
      return Fail(500, ProductsReportError);
    }
    FindIsProductsSelection(db, q.value, startDate, endDate, userId);
    var sales := Find(db, q.value);
    var data := AccumulateProducts(sales, catalogue);
    if data.None? {
      return Fail(500, ProductsReportError);
    }
    AccumulatedRows(Flatten(sales), catalogue);
    var rows := FinalizeAll(data.value);
    r := Ok(SelectProduct(rows, data.value.order, productId));
  }

  // ---------------------------------------------------------------------------
  // Commission report

  /** The populated customer (src/models/Customer.js). */
  datatype Customer = Customer(name: string)

  datatype CustomerInfo = CustomerInfo(id: Id, name: string)
  datatype SellerInfo = SellerInfo(id: Id, name: string, commission: real)
  datatype CommissionRow = CommissionRow(saleId: Id, date: int, customer: CustomerInfo, user: SellerInfo,
                                         totalValue: int, comissionValue: real)

  /** `populate('customer user')` finds both documents of a sale. */
  predicate Populated(d: SaleDoc, customers: map<Id, Customer>, users: map<Id, UserController.UserRecord>)
  {
    d.sale.customer in customers && d.sale.user in users
  }

  /** The commission percentage: 0 when undefined. */
  function CommissionOf(u: UserController.UserRecord): (c: real)
    ensures u.commission.None? ==> c == 0.0
    ensures u.commission.Some? ==> c == u.commission.value
  {
    if u.commission.None? then 0.0 else u.commission.value
  }

  /** What Mongoose saves of a user record under the schema's default strict mode: the
      User schema declares no `commission` path, so the commission is dropped and every
      other field is kept. */
  function SchemaStored(u: UserController.UserRecord): (s: UserController.UserRecord)
    ensures s.commission.None?
    ensures s.(commission := u.commission) == u
  {
    u.(commission := None)
  }

  /** The `map` at lines 156-171. None: destructuring a customer or user that was
      populated as null throws. */
  function CommissionRows(sales: seq<SaleDoc>, customers: map<Id, Customer>, users: map<Id, UserController.UserRecord>)
    : (r: Option<seq<CommissionRow>>)
    ensures r.Some? <==> forall i :: 0 <= i < |sales| ==> Populated(sales[i], customers, users)
    ensures r.Some? ==> |r.value| == |sales|
    ensures r.Some? ==> forall i :: 0 <= i < |sales| ==>
              var s := sales[i].sale;
              var row := r.value[i];
              var c := CommissionOf(users[s.user]);
              && row.saleId == sales[i].id && row.date == s.date && row.totalValue == s.total
              && row.customer == CustomerInfo(s.customer, customers[s.customer].name)
              && row.user == SellerInfo(s.user, users[s.user].name, c)
              && row.comissionValue * 100.0 == (s.total as real) * c
  {
    if sales == [] then Some([])
    else
      var init := CommissionRows(sales[..|sales| - 1], customers, users);
      var d := sales[|sales| - 1];
      if init.None? || !Populated(d, customers, users) then None
      else
        var s := d.sale;
        var c := CommissionOf(users[s.user]);
        var row := CommissionRow(d.id, s.date, CustomerInfo(s.customer, customers[s.customer].name),
                                 SellerInfo(s.user, users[s.user].name, c), s.total, (s.total as real * c) / 100.0);
        Some(init.value + [row])
  }

  /** As written, the stored users never carry a commission, so the commission report pays
      0 on every sale, whatever commission `store` or `update` was given. */
  lemma StrictModePaysNoCommission(sales: seq<SaleDoc>, customers: map<Id, Customer>,
                                   users: map<Id, UserController.UserRecord>)
    ensures var stored := map id | id in users :: SchemaStored(users[id]);
            var r := CommissionRows(sales, customers, stored);
            && (r.Some? <==> CommissionRows(sales, customers, users).Some?)
            && (r.Some? ==> forall i :: 0 <= i < |r.value| ==>
                  r.value[i].user.commission == 0.0 && r.value[i].comissionValue == 0.0)
  {
    var stored := map id | id in users :: SchemaStored(users[id]);
    forall i | 0 <= i < |sales| ensures Populated(sales[i], customers, stored) <==> Populated(sales[i], customers, users) {
    }
  }

  /** `getCommissionsReport`. */
  method GetCommissionsReport(db: seq<SaleDoc>, startDate: Option<int>, endDate: Option<int>, userId: Option<UserParam>,
                              customers: map<Id, Customer>, users: map<Id, UserController.UserRecord>)
    returns (r: Outcome<seq<CommissionRow>>)
    ensures var sel := Where(db, (d: SaleDoc) => InWindow(startDate, endDate, d.sale.date) &&
                                      (userId.Some? ==> d.sale.user in UserIds(userId.value)));
            && (r.Ok? <==> CommissionRows(sel, customers, users).Some?)
            && (r.Ok? ==> r.value == CommissionRows(sel, customers, users).value)
            && (r.Fail? ==> r == Fail(500, CommissionsReportError))
  {
    var q := CommissionsQuery(startDate, endDate, userId);
    WhereExtensional(db, (d: SaleDoc) => Matches(q, d.sale),
                     (d: SaleDoc) => InWindow(startDate, endDate, d.sale.date) &&
                          (userId.Some? ==> d.sale.user in UserIds(userId.value)));
    var rows := CommissionRows(Find(db, q), customers, users);
    if rows.None? {
      return Fail(500, CommissionsReportError);
    }
    r := Ok(rows.value);
  }
}
