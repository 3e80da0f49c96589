/** The sale handlers of src/controllers/SaleController.js as operations on the sales
    collection, held as a map from id to record. */
module SaleController {
  import opened Common
  import opened SaleModel

  const NotFoundMessage: string := "Venda não encontrada"
  const NotOwnerMessage: string := "Não é permitido alterar vendas de outro usuário."
  const RemovedMessage: string := "Venda removida com sucesso!"

  /** A request body for `store` and `update`; `user` is whatever the client sent. */
  datatype SaleBody = SaleBody(date: int, customer: Id, subtotal: int, discount: int, addition: int,
                               total: int, items: seq<Item>, user: Option<Id>)

  /** The record `update` saves: the seven fields of the body over the loaded sale; the
      recorded `user` stays. */
  function Overwrite(s: Sale, b: SaleBody): (r: Sale)
    ensures r.user == s.user
    ensures r.customer == b.customer && r.date == b.date && r.subtotal == b.subtotal
    ensures r.discount == b.discount && r.addition == b.addition && r.total == b.total
    ensures r.items == b.items
  {
    s.(customer := b.customer, date := b.date, subtotal := b.subtotal, discount := b.discount,
       addition := b.addition, total := b.total, items := b.items)
  }

  /** The record `store` creates: the body with `user` replaced by the requester. */
  function Stamped(b: SaleBody, requester: Id): (r: Sale)
    ensures r.user == requester
    ensures r.customer == b.customer && r.date == b.date && r.subtotal == b.subtotal
    ensures r.discount == b.discount && r.addition == b.addition && r.total == b.total
    ensures r.items == b.items
  {
    Sale(b.date, b.customer, b.subtotal, b.discount, b.addition, b.total, b.items, requester)
  }

  /** A client's `user` field never reaches the stored record. */
  lemma StampIgnoresBodyUser(b: SaleBody, requester: Id, u: Option<Id>)
    ensures Stamped(b.(user := u), requester) == Stamped(b, requester)
  {
  }

  /** Overwriting is idempotent and ignores the client's `user` field. */
  lemma OverwriteIdempotent(s: Sale, b: SaleBody, u: Option<Id>)
    ensures Overwrite(Overwrite(s, b), b) == Overwrite(s, b)
    ensures Overwrite(s, b.(user := u)) == Overwrite(s, b)
  {
  }

  /** A sale as `index` lists it: the document's `_id` with its fields. */
  datatype StoredSale = StoredSale(id: Id, sale: Sale)

  /** One entry per id: listing a map's entries loses none of them. */
  lemma IndexSize(sales: map<Id, Sale>, r: set<StoredSale>)
    requires r == set id | id in sales :: StoredSale(id, sales[id])
    ensures |r| == |sales|
  {
    if sales != map[] {
      var k :| k in sales;
      var rest := sales - {k};
      var r' := set id | id in rest :: StoredSale(id, rest[id]);
      IndexSize(rest, r');
      forall e | e in r ensures e in r' + {StoredSale(k, sales[k])} {
        var id :| id in sales && e == StoredSale(id, sales[id]);
        if id != k {
          assert id in rest;
        }
      }
      forall e | e in r' ensures e in r {
        var id :| id in rest && e == StoredSale(id, rest[id]);
      }
      assert r == r' + {StoredSale(k, sales[k])};
      assert StoredSale(k, sales[k]) !in r';
    }
  }

  class SaleStore {
    var sales: map<Id, Sale>
    var nextId: Id

    ghost predicate Valid()
      reads this
    {
      forall id :: id in sales ==> id < nextId
    }

    constructor ()
      ensures Valid() && sales == map[]
    {
      sales := map[];
      nextId := 0;
    }

    /** `index`: every stored sale with its id, and nothing else. */
    function Index(): (r: set<StoredSale>)
      reads this
      ensures forall id :: id in sales ==> StoredSale(id, sales[id]) in r
      ensures forall e :: e in r ==> e.id in sales && e.sale == sales[e.id]
      ensures |r| == |sales|
    {
      var r := set id | id in sales :: StoredSale(id, sales[id]);
      IndexSize(sales, r);
      r
    }

    /** `show`: the sale with that id, or 404. */
    function Show(id: Id): (r: Outcome<Sale>)
      reads this
      ensures r.Ok? <==> id in sales
      ensures r.Ok? ==> r.value == sales[id]
      ensures r.Fail? ==> r.status == 404 && r.message == NotFoundMessage
    {
      if id in sales then Ok(sales[id]) else Fail(404, NotFoundMessage)
    }

    /** `store`: the requester becomes the sale's `user`, whatever the body says. */
    method Store(requester: Id, body: SaleBody) returns (id: Id, sale: Sale)
      requires Valid()
      modifies this
      ensures Valid()
      ensures id !in old(sales)
      ensures sale == Stamped(body, requester) && sale.user == requester
      ensures sales == old(sales)[id := sale]
    {
      id := nextId;
      nextId := nextId + 1;
      sale := Stamped(body, requester);
      sales := sales[id := sale];
    }

    /** `update`: only the recorded user may change a sale; anybody else gets a 404
        with its own message. There is no administrator bypass. */
    method Update(requester: Id, id: Id, body: SaleBody) returns (r: Outcome<Sale>)
      requires Valid()
      modifies this
      ensures Valid() && nextId == old(nextId)
      ensures id !in old(sales) ==> r == Fail(404, NotFoundMessage) && sales == old(sales)
      ensures id in old(sales) && old(sales)[id].user != requester ==>
                r == Fail(404, NotOwnerMessage) && sales == old(sales)
      ensures id in old(sales) && old(sales)[id].user == requester ==>
                r == Ok(Overwrite(old(sales)[id], body)) && sales == old(sales)[id := r.value]
      ensures forall k :: k in sales <==> k in old(sales)
      ensures forall k :: k in sales ==> sales[k].user == old(sales)[k].user
    {
      if id !in sales {
        return Fail(404, NotFoundMessage);
      }
      var sale := sales[id];
      if sale.user != requester {
        return Fail(404, NotOwnerMessage);
      }
      sale := sale.(customer := body.customer);
      sale := sale.(date := body.date);
      sale := sale.(subtotal := body.subtotal);
      sale := sale.(discount := body.discount);
      sale := sale.(addition := body.addition);
      sale := sale.(total := body.total);
      sale := sale.(items := body.items);
      sales := sales[id := sale];
      r := Ok(sale);
    }

    /** `destroy`: a physical delete. */
    method Destroy(id: Id) returns (r: Outcome<string>)
      requires Valid()
      modifies this
      ensures Valid() && nextId == old(nextId)
      ensures id !in old(sales) ==> r == Fail(404, NotFoundMessage) && sales == old(sales)
      ensures id in old(sales) ==> r == Ok(RemovedMessage) && sales == old(sales) - {id}
    {
      if id !in sales {
        return Fail(404, NotFoundMessage);
      }
      sales := sales - {id};
      r := Ok(RemovedMessage);
    }
  }
}
