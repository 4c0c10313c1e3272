/**
 What the sale service promises, proved about the reference definitions in
 `SaleService`: the short-circuit order of each operation, what a
 successful call writes, the store invariants every call keeps, and how
 calls compose.
 */
module SaleProperties {
  import opened SaleTypes
  import opened InMemoryStore
  import opened SaleService

  /** Every line item of every stored sale names a known product. */
  ghost predicate ReferencesKnownProducts(s: Snapshot) {
    forall id, i :: id in s.sales && 0 <= i < |s.sales[id]| ==> s.sales[id][i].productId in s.products
  }

  /** Some stored item of the sale names the product: `saleById.some(...)`. */
  ghost predicate SaleHasProduct(sale: seq<LineItem>, productId: int) {
    exists j :: 0 <= j < |sale| && sale[j].productId == productId
  }

  /**
   The update's existence check, `body.forEach` over `saleById.some`, read
   as a plain quantifier: every body item's product id is that of some
   stored item of the sale.
   */
  lemma KnownInSale(body: seq<LineItem>, sale: seq<LineItem>)
    ensures AllKnown(body, ProductIds(sale))
        <==> forall i :: 0 <= i < |body| ==> SaleHasProduct(sale, body[i].productId)
  {
    var ids := ProductIds(sale);
    forall i | 0 <= i < |body|
      ensures body[i].productId in ids <==> SaleHasProduct(sale, body[i].productId)
    {
      if SaleHasProduct(sale, body[i].productId) {
        var j :| 0 <= j < |sale| && sale[j].productId == body[i].productId;
        assert ids[j] == body[i].productId;
      }
    }
  }

  // ---------------------------------------------------------------------
  // Reads

  lemma ShowSalesByIdOutcome(s: Snapshot, id: int)
    ensures var step := ShowSalesByIdStep(s, id);
      && step.after == s
      && (step.response == SaleNotFoundResponse <==> id !in s.sales || s.sales[id] == [])
      && (id in s.sales && s.sales[id] != [] ==> step.response == Success(SaleItems(s.sales[id])))
  {
  }

  // ---------------------------------------------------------------------
  // createNewSale

  /** A validation error is returned as the validator built it, and nothing is written. */
  lemma CreateNewSaleValidationFirst(validate: Validator, s: Snapshot, sale: seq<LineItem>)
    requires validate(sale).Some?
    ensures CreateNewSaleStep(validate, s, sale)
         == Step(Failure(validate(sale).value.tag, validate(sale).value.message), s)
  {
  }

  /**
   Once validation passes, `PRODUCT_NOT_FOUND` comes back exactly when some
   item's product id is not in the product table, and then nothing is written.
   */
  lemma CreateNewSaleProductNotFound(validate: Validator, s: Snapshot, sale: seq<LineItem>)
    requires validate(sale).None?
    ensures var step := CreateNewSaleStep(validate, s, sale);
      && (step.response == ProductNotFoundResponse
          <==> exists i :: 0 <= i < |sale| && sale[i].productId !in s.products)
      && (step.response == ProductNotFoundResponse ==> step.after == s)
  {
  }

  /**
   A successful create stores exactly one new sale, under an id no sale had,
   holding the submitted items, and echoes them back with that id.
   */
  lemma CreateNewSaleSuccess(validate: Validator, s: Snapshot, sale: seq<LineItem>)
    requires s.Consistent()
    ensures var step := CreateNewSaleStep(validate, s, sale);
      && (step.response.Success?
          <==> validate(sale).None? && forall i :: 0 <= i < |sale| ==> sale[i].productId in s.products)
      && (!step.response.Success? ==> step.after == s)
      && (step.response.Success? ==>
            && var newSaleId := step.response.payload.id;
            && step.response == Success(Created(newSaleId, sale))
            && newSaleId !in s.sales
            && step.after.sales.Keys == s.sales.Keys + {newSaleId}
            && step.after.sales[newSaleId] == sale
            && (forall id :: id in s.sales ==> step.after.sales[id] == s.sales[id])
            && step.after.products == s.products
            && step.after.Consistent())
  {
  }

  // ---------------------------------------------------------------------
  // updateSale

  /**
   Validation runs first and its error is returned unchanged; next a sale
   with no line items yields `SALE_NOT_FOUND`. Neither writes anything.
   */
  lemma UpdateSaleValidationThenSaleNotFound(validate: Validator, s: Snapshot, id: int, body: seq<LineItem>)
    ensures var step := UpdateSaleStep(validate, s, id, body);
      && (validate(body).Some? ==>
            step == Step(Failure(validate(body).value.tag, validate(body).value.message), s))
      && (validate(body).None? ==>
            (step.response == SaleNotFoundResponse <==> id !in s.sales || s.sales[id] == []))
      && (step.response == SaleNotFoundResponse ==> step.after == s)
  {
  }

  /**
   For a valid body and an existing sale, `PRODUCT_NOT_FOUND` comes back
   exactly when some body item's product id appears in none of the sale's
   own line items (the product table is not consulted).
   */
  lemma UpdateSaleProductNotFound(validate: Validator, s: Snapshot, id: int, body: seq<LineItem>)
    requires validate(body).None? && id in s.sales && s.sales[id] != []
    ensures var step := UpdateSaleStep(validate, s, id, body);
      && (step.response == ProductNotFoundResponse
          <==> exists i :: 0 <= i < |body| && !SaleHasProduct(s.sales[id], body[i].productId))
      && (step.response == ProductNotFoundResponse ==> step.after == s)
      && step.response != SaleNotFoundResponse
  {
    KnownInSale(body, s.sales[id]);
  }

  /**
   Past the checks, a body or a stored sale with fewer than two items makes
   the positional overwrite index a missing element: the call is rejected
   and nothing is written.
   */
  lemma UpdateSaleRejected(validate: Validator, s: Snapshot, id: int, body: seq<LineItem>)
    ensures var step := UpdateSaleStep(validate, s, id, body);
      && (step.response == Rejected
          <==> && validate(body).None?
               && id in s.sales && s.sales[id] != []
               && (forall i :: 0 <= i < |body| ==> SaleHasProduct(s.sales[id], body[i].productId))
               && (|body| < 2 || |s.sales[id]| < 2))
      && (step.response == Rejected ==> step.after == s)
  {
    if id in s.sales {
      KnownInSale(body, s.sales[id]);
    }
  }

  /**
   An update succeeds exactly when the body is valid, both the body and the
   stored sale have at least two items, and every body product id occurs in
   the sale. A successful update touches one sale only, and in it only the
   quantities at positions 0 and 1, which become those of body[0] and
   body[1]; the product ids, the length and every later item stay as they were.
   */
  lemma UpdateSaleSuccess(validate: Validator, s: Snapshot, id: int, body: seq<LineItem>)
    requires s.Consistent()
    ensures var step := UpdateSaleStep(validate, s, id, body);
      && (step.response.Success?
          <==> && validate(body).None?
               && id in s.sales && |s.sales[id]| >= 2 && |body| >= 2
               && forall i :: 0 <= i < |body| ==> SaleHasProduct(s.sales[id], body[i].productId))
      && (!step.response.Success? ==> step.after == s)
      && (step.response.Success? ==>
            && id in s.sales
            && step.response == Success(Updated(id, body))
            && |body| >= 2
            && step.after.products == s.products
            && step.after.nextId == s.nextId
            && step.after.sales.Keys == s.sales.Keys
            && (forall other :: other in s.sales && other != id ==> step.after.sales[other] == s.sales[other])
            && var before, now := s.sales[id], step.after.sales[id];
            && |now| == |before| >= 2
            && (forall k :: 0 <= k < |now| ==> now[k].productId == before[k].productId)
            && now[0].quantity == body[0].quantity
            && now[1].quantity == body[1].quantity
            && (forall k :: 2 <= k < |now| ==> now[k] == before[k])
            && step.after.Consistent())
  {
    if id in s.sales {
      KnownInSale(body, s.sales[id]);
    }
  }

  /**
   Updating a sale that holds products 1 and 2 with quantities 5 and 3 for
   those products succeeds and overwrites the two quantities in place.
   */
  lemma UpdateSaleScenario(validate: Validator, s: Snapshot)
    requires s.Consistent()
    requires 1 in s.sales && s.sales[1] == [LineItem(1, 1), LineItem(2, 1)]
    requires validate([LineItem(1, 5), LineItem(2, 3)]).None?
    ensures var body := [LineItem(1, 5), LineItem(2, 3)];
      var step := UpdateSaleStep(validate, s, 1, body);
      && step.response == Success(Updated(1, body))
      && step.after.sales == s.sales[1 := body]
  {
    var body := [LineItem(1, 5), LineItem(2, 3)];
    assert ProductIds(s.sales[1]) == [1, 2];
    assert WithQuantities(s.sales[1], body) == body;
  }

  // ---------------------------------------------------------------------
  // deleteSale

  /**
   Deleting a sale with no line items yields `SALE_NOT_FOUND` and deletes
   nothing; otherwise exactly that sale is removed and the message is empty.
   */
  lemma DeleteSaleOutcome(s: Snapshot, id: int)
    requires s.Consistent()
    ensures var step := DeleteSaleStep(s, id);
      && (step.response == SaleNotFoundResponse <==> id !in s.sales || s.sales[id] == [])
      && (step.response == SaleNotFoundResponse ==> step.after == s)
      && (step.response != SaleNotFoundResponse ==>
            && step.response == Success(Text(""))
            && step.after.sales.Keys == s.sales.Keys - {id}
            && (forall other :: other in step.after.sales ==> step.after.sales[other] == s.sales[other])
            && step.after.products == s.products
            && step.after.nextId == s.nextId
            && step.after.Consistent())
  {
  }

  // ---------------------------------------------------------------------
  // Invariants over any sequence of calls

  datatype Call =
    | ShowAll
    | ShowById(id: int)
    | Create(sale: seq<LineItem>)
    | Update(id: int, body: seq<LineItem>)
    | Delete(id: int)

  function Apply(validate: Validator, s: Snapshot, c: Call): (step: Step) {
    match c
    case ShowAll => ShowAllSalesStep(s)
    case ShowById(id) => ShowSalesByIdStep(s, id)
    case Create(sale) => CreateNewSaleStep(validate, s, sale)
    case Update(id, body) => UpdateSaleStep(validate, s, id, body)
    case Delete(id) => DeleteSaleStep(s, id)
  }

  /** The store after the calls have run one after another. */
  function Run(validate: Validator, s: Snapshot, calls: seq<Call>): (after: Snapshot)
    decreases |calls|
  {
    if calls == [] then s else Run(validate, Apply(validate, s, calls[0]).after, calls[1..])
  }

  /** An update rewrites quantities only, so every stored product id survives it. */
  lemma WithQuantitiesKeepsProductIds(sale: seq<LineItem>, body: seq<LineItem>)
    requires |sale| >= 2 && |body| >= 2
    ensures ProductIds(WithQuantities(sale, body)) == ProductIds(sale)
  {
  }

  /**
   One call keeps the fresh-id invariant and the rule that sales name only
   known products, never changes the product table and never moves the id
   counter back.
   */
  lemma ApplyPreservesInvariants(validate: Validator, s: Snapshot, c: Call)
    requires s.Consistent() && ReferencesKnownProducts(s)
    ensures var after := Apply(validate, s, c).after;
      && after.Consistent()
      && ReferencesKnownProducts(after)
      && after.products == s.products
      && after.nextId >= s.nextId
  {
  }

  /** The invariants hold after any sequence of service calls. */
  lemma {:induction false} RunPreservesInvariants(validate: Validator, s: Snapshot, calls: seq<Call>)
    requires s.Consistent() && ReferencesKnownProducts(s)
    ensures var after := Run(validate, s, calls);
      && after.Consistent()
      && ReferencesKnownProducts(after)
      && after.products == s.products
      && after.nextId >= s.nextId
    decreases |calls|
  {
    if calls != [] {
      ApplyPreservesInvariants(validate, s, calls[0]);
      RunPreservesInvariants(validate, Apply(validate, s, calls[0]).after, calls[1..]);
    }
  }

  // ---------------------------------------------------------------------
  // Calls in sequence

  /** A sale created with at least one item can be read back unchanged under its new id. */
  lemma CreateThenShow(validate: Validator, s: Snapshot, sale: seq<LineItem>)
    requires s.Consistent() && sale != []
    requires CreateNewSaleStep(validate, s, sale).response.Success?
    ensures var created := CreateNewSaleStep(validate, s, sale);
      ShowSalesByIdStep(created.after, created.response.payload.id).response == Success(SaleItems(sale))
  {
  }

  /**
   A sale created with no items is stored, yet reading it back reports
   `SALE_NOT_FOUND`: the read cannot tell an empty sale from a missing one.
   */
  lemma CreateEmptyThenShow(validate: Validator, s: Snapshot)
    requires validate([]).None?
    ensures var created := CreateNewSaleStep(validate, s, []);
      && created.response == Success(Created(s.nextId, []))
      && s.nextId in created.after.sales
      && ShowSalesByIdStep(created.after, s.nextId).response == SaleNotFoundResponse
      && DeleteSaleStep(created.after, s.nextId) == Step(SaleNotFoundResponse, created.after)
  {
  }

  /** After a delete, the sale reads as not found and a second delete changes nothing. */
  lemma DeleteThenShowAndDelete(s: Snapshot, id: int)
    requires s.Consistent()
    ensures var deleted := DeleteSaleStep(s, id).after;
      && ShowSalesByIdStep(deleted, id).response == SaleNotFoundResponse
      && DeleteSaleStep(deleted, id) == Step(SaleNotFoundResponse, deleted)
  {
  }

  /**
   Creating a sale and deleting it again restores the sales table; the id
   counter has still moved on, so the id is not handed out twice.
   */
  lemma CreateThenDelete(validate: Validator, s: Snapshot, sale: seq<LineItem>)
    requires s.Consistent() && sale != []
    requires CreateNewSaleStep(validate, s, sale).response.Success?
    ensures var created := CreateNewSaleStep(validate, s, sale);
      var deleted := DeleteSaleStep(created.after, created.response.payload.id);
      && deleted.response == Success(Text(""))
      && deleted.after.sales == s.sales
      && deleted.after.nextId == s.nextId + 1
  {
  }

  /** Repeating a successful update with the same body succeeds again and changes nothing more. */
  lemma UpdateTwice(validate: Validator, s: Snapshot, id: int, body: seq<LineItem>)
    requires s.Consistent()
    requires UpdateSaleStep(validate, s, id, body).response.Success?
    ensures var first := UpdateSaleStep(validate, s, id, body);
      UpdateSaleStep(validate, first.after, id, body) == first
  {
    var sale := s.sales[id];
    var updated := WithQuantities(sale, body);
    WithQuantitiesKeepsProductIds(sale, body);
    assert WithQuantities(updated, body) == updated;
  }
}
