/**
 The sale service: reading, creating, updating and deleting sales over the
 store, with schema validation first, then the not-found checks, then the
 write. Each operation has a reference definition on store snapshots (the
 `...Step` functions) and a method on `Service` proved to behave as it.
 */
module SaleService {
  import opened SaleTypes
  import opened InMemoryStore

  /** What one call returns and the store it leaves behind. */
  datatype Step = Step(response: Response, after: Snapshot)

  /** Every item names a product id that occurs in `known`. */
  predicate AllKnown(items: seq<LineItem>, known: seq<int>) {
    forall i :: 0 <= i < |items| ==> items[i].productId in known
  }

  /**
   The `forEach` over the items that raises `productDoesNotExist` when an
   item's product id matches none of `known`.
   */
  method FindUnknownProduct(items: seq<LineItem>, known: seq<int>) returns (productDoesNotExist: bool)
    ensures productDoesNotExist <==> exists i :: 0 <= i < |items| && items[i].productId !in known
    ensures productDoesNotExist <==> !AllKnown(items, known)
  {
    productDoesNotExist := false;
    var i := 0;
    while i < |items|
      invariant 0 <= i <= |items|
      invariant productDoesNotExist <==> exists j :: 0 <= j < i && items[j].productId !in known
    {
      if items[i].productId !in known {
        productDoesNotExist := true;
      }
      i := i + 1;
    }
  }

  /**
   The stored items after an update: each keeps its product id, the first
   two take the quantities of the first two body items, the rest are as
   they were.
   */
  function WithQuantities(sale: seq<LineItem>, body: seq<LineItem>): (updated: seq<LineItem>)
    requires |sale| >= 2 && |body| >= 2
  {
    seq(|sale|, i requires 0 <= i < |sale| =>
      if i < 2 then LineItem(sale[i].productId, body[i].quantity) else sale[i])
  }

  function ShowAllSalesStep(s: Snapshot): (step: Step) {
    Step(Success(AllSales(s.sales)), s)
  }

  function ShowSalesByIdStep(s: Snapshot, id: int): (step: Step) {
    var sale := SalesById(s.sales, id);
    Step(if |sale| == 0 then SaleNotFoundResponse else Success(SaleItems(sale)), s)
  }

  function CreateNewSaleStep(validate: Validator, s: Snapshot, sale: seq<LineItem>): (step: Step) {
    match validate(sale)
    case Some(error) => Step(Failure(error.tag, error.message), s)
    case None =>
      if !AllKnown(sale, s.products) then Step(ProductNotFoundResponse, s)
      else Step(Success(Created(s.nextId, sale)),
                s.(sales := s.sales[s.nextId := sale], nextId := s.nextId + 1))
  }

  function UpdateSaleStep(validate: Validator, s: Snapshot, id: int, body: seq<LineItem>): (step: Step) {
    match validate(body)
    case Some(error) => Step(Failure(error.tag, error.message), s)
    case None =>
      var saleById := SalesById(s.sales, id);
      if |saleById| == 0 then Step(SaleNotFoundResponse, s)
      else if !AllKnown(body, ProductIds(saleById)) then Step(ProductNotFoundResponse, s)
      else if |body| < 2 || |saleById| < 2 then Step(Rejected, s)
      else Step(Success(Updated(id, body)), s.(sales := s.sales[id := WithQuantities(saleById, body)]))
  }

  function DeleteSaleStep(s: Snapshot, id: int): (step: Step) {
    if |SalesById(s.sales, id)| == 0 then Step(SaleNotFoundResponse, s)
    else Step(Success(Text("")), s.(sales := s.sales - {id}))
  }

  /** The service object, holding the store and the schema validator it was built with. */
  class Service {
    const store: Store
    const validate: Validator

    constructor (store: Store, validate: Validator)
      ensures this.store == store && this.validate == validate
    {
      this.store := store;
      this.validate := validate;
    }

    /** Never fails: the whole sales table, tagged `type: null`. */
    method ShowAllSales() returns (r: Response)
      ensures r.Success? && r.payload == AllSales(store.sales)
      ensures r == ShowAllSalesStep(store.State()).response
    {
      var listAllSales := store.ShowAllSales();
      r := Success(AllSales(listAllSales));
    }

    /** The sale's items unchanged, or `SALE_NOT_FOUND` when it has none. */
    method ShowSalesById(id: int) returns (r: Response)
      ensures r.Failure? <==> id !in store.sales || store.sales[id] == []
      ensures r.Failure? ==> r == SaleNotFoundResponse
      ensures !r.Failure? ==> id in store.sales && r == Success(SaleItems(store.sales[id]))
      ensures r == ShowSalesByIdStep(store.State(), id).response
    {
      var sale := store.ShowSalesById(id);
      if |sale| == 0 {
        return SaleNotFoundResponse;
      }
      r := Success(SaleItems(sale));
    }

    method CreateNewSale(sale: seq<LineItem>) returns (r: Response)
      requires store.Valid()
      modifies store
      ensures store.Valid()
      ensures Step(r, store.State()) == CreateNewSaleStep(validate, old(store.State()), sale)
    {
      var error := validate(sale);
      if error.Some? {
        return Failure(error.value.tag, error.value.message);
      }
      var listProduct := store.ShowAllProducts();
      var productDoesNotExist := FindUnknownProduct(sale, listProduct);
      if productDoesNotExist {
        return ProductNotFoundResponse;
      }
      var newSaleId := store.CreateNewSale(sale);
      r := Success(Created(newSaleId, sale));
    }

    method UpdateSale(id: int, body: seq<LineItem>) returns (r: Response)
      requires store.Valid()
      modifies store
      ensures store.Valid()
      ensures Step(r, store.State()) == UpdateSaleStep(validate, old(store.State()), id, body)
    {
      var error := validate(body);
      if error.Some? {
        return Failure(error.value.tag, error.value.message);
      }
      var saleById := store.ShowSalesById(id);
      if |saleById| == 0 {
        return SaleNotFoundResponse;
      }
      var productDoesNotExist := FindUnknownProduct(body, ProductIds(saleById));
      if productDoesNotExist {
        return ProductNotFoundResponse;
      }
      // saleById[0].quantity = body[0].quantity: body[0] may be missing
      if |body| < 1 {
        return Rejected;
      }
      saleById := saleById[0 := saleById[0].(quantity := body[0].quantity)];
      // saleById[1].quantity = body[1].quantity: either element may be missing
      if |saleById| < 2 || |body| < 2 {
        return Rejected;
      }
      saleById := saleById[1 := saleById[1].(quantity := body[1].quantity)];
      assert saleById == WithQuantities(SalesById(old(store.sales), id), body);
      store.UpdateSale(id, saleById);
      r := Success(Updated(id, body));
    }

    method DeleteSale(id: int) returns (r: Response)
      requires store.Valid()
      modifies store
      ensures store.Valid()
      ensures Step(r, store.State()) == DeleteSaleStep(old(store.State()), id)
    {
      var sale := store.ShowSalesById(id);
      if |sale| == 0 {
        return SaleNotFoundResponse;
      }
      store.DeleteSale(id);
      r := Success(Text(""));
    }
  }
}
