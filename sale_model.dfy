/** The sale record of src/models/Sale.js and the spec functions that stand for the
    `find` / `$match` stages run over the sales collection. Money is in integer cents;
    a date is an abstract instant (larger is later). */
module SaleModel {
  import opened Common

  /** One line of a sale (the `items` sub-document). */
  datatype Item = Item(product: Id, quantity: int, unitPrice: int, discount: int, addition: int, totalPrice: int)

  /** The fields the Sale schema declares. */
  datatype Sale = Sale(date: int, customer: Id, subtotal: int, discount: int, addition: int,
                       total: int, items: seq<Item>, user: Id)

  /** A document of the sales collection. The schema has no `canceledAt` path and no code
      here writes one, but the dashboard pipelines filter on `canceledAt: null`, so a
      document may carry the field from elsewhere; None stands for null or missing. */
  datatype SaleDoc = SaleDoc(id: Id, sale: Sale, canceledAt: Option<int>)

  /** The documents that satisfy `p`, in collection order: what a `find` or a `$match`
      stage yields. */
  function Where(db: seq<SaleDoc>, p: SaleDoc -> bool): (r: seq<SaleDoc>)
    ensures |r| <= |db|
    ensures forall d :: d in r <==> d in db && p(d)
    ensures multiset(r) <= multiset(db)
  {
    if db == [] then []
    else
      var rest := Where(db[..|db| - 1], p);
      assert db == db[..|db| - 1] + [db[|db| - 1]];
      if p(db[|db| - 1]) then rest + [db[|db| - 1]] else rest
  }

  /** Two filters that agree on every document select the same documents. */
  lemma {:induction false} WhereExtensional(db: seq<SaleDoc>, p: SaleDoc -> bool, q: SaleDoc -> bool)
    requires forall d :: p(d) == q(d)
    ensures Where(db, p) == Where(db, q)
  {
    if db != [] {
      WhereExtensional(db[..|db| - 1], p, q);
    }
  }

  /** Sum of `total` over documents. */
  function SumTotal(docs: seq<SaleDoc>): int
  {
    if docs == [] then 0 else SumTotal(docs[..|docs| - 1]) + docs[|docs| - 1].sale.total
  }

  /** The items of all the given sales, sale by sale, in order. */
  function Flatten(docs: seq<SaleDoc>): seq<Item>
  {
    if docs == [] then [] else Flatten(docs[..|docs| - 1]) + docs[|docs| - 1].sale.items
  }
}
