/**
 An in-memory stand-in for the SQL-backed `productModel` and `saleModel`:
 the product ids, the sales table (sale id to its line items) and the
 counter the table hands new ids out from.
 */
module InMemoryStore {
  import opened SaleTypes

  /** The abstract value of the store. */
  datatype Snapshot = Snapshot(products: seq<int>, sales: map<int, seq<LineItem>>, nextId: int)
  {
    /** Every stored sale id was handed out already, so `nextId` is fresh. */
    ghost predicate Consistent() {
      forall id :: id in sales ==> id < nextId
    }
  }

  /**
   What `saleModel.showSalesById` yields: the sale's line items, or no
   items at all when the id is unknown.
   */
  function SalesById(sales: map<int, seq<LineItem>>, id: int): (items: seq<LineItem>)
    ensures items != [] ==> id in sales
    ensures id in sales ==> items == sales[id]
  {
    if id in sales then sales[id] else []
  }

  class Store {
    var products: seq<int>
    var sales: map<int, seq<LineItem>>
    var nextId: int

    function State(): Snapshot
      reads this
    {
      Snapshot(products, sales, nextId)
    }

    ghost predicate Valid()
      reads this
    {
      State().Consistent()
    }

    constructor (products: seq<int>, sales: map<int, seq<LineItem>>, nextId: int)
      requires Snapshot(products, sales, nextId).Consistent()
      ensures Valid() && State() == Snapshot(products, sales, nextId)
    {
      this.products := products;
      this.sales := sales;
      this.nextId := nextId;
    }

    /** `productModel.showAllProducts`, reduced to the ids. */
    method ShowAllProducts() returns (ids: seq<int>)
      ensures ids == products
    {
      ids := products;
    }

    method ShowAllSales() returns (all: map<int, seq<LineItem>>)
      ensures all == sales
    {
      all := sales;
    }

    method ShowSalesById(id: int) returns (items: seq<LineItem>)
      ensures items == SalesById(sales, id)
    {
      items := SalesById(sales, id);
    }

    /** Stores a new sale under a fresh id and returns that id. */
    method CreateNewSale(items: seq<LineItem>) returns (id: int)
      requires Valid()
      modifies this
      ensures Valid()
      ensures id == old(nextId) && id !in old(sales)
      ensures State() == old(State()).(sales := old(sales)[id := items], nextId := id + 1)
    {
      id := nextId;
      sales := sales[id := items];
      nextId := nextId + 1;
    }

    /** Replaces the line items of an existing sale. */
    method UpdateSale(id: int, items: seq<LineItem>)
      requires Valid() && id in sales
      modifies this
      ensures Valid()
      ensures State() == old(State()).(sales := old(sales)[id := items])
    {
      sales := sales[id := items];
    }

    /** Removes a sale; an unknown id leaves the table as it is. */
    method DeleteSale(id: int)
      requires Valid()
      modifies this
      ensures Valid()
      ensures State() == old(State()).(sales := old(sales) - {id})
    {
      sales := sales - {id};
    }
  }
}
