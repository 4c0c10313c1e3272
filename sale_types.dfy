/**
 The values exchanged by the sale service: line items, the tagged
 `{type, message}` results every service call returns, and the validator
 the service is given.
 */
module SaleTypes {

  datatype Option<+T> = None | Some(value: T)

  /** One line of a sale: a product and how many units of it were sold. */
  datatype LineItem = LineItem(productId: int, quantity: int)

  /** The classification carried in the `type` field of a failed call. */
  datatype Tag = BadRequest | UnprocessableEntity | SaleNotFound | ProductNotFound

  /** What the schema validator reports for a rejected item list. */
  datatype ValidationError = ValidationError(tag: Tag, message: string)

  /**
   The schema check `validateNewSale`: `None` when the items are accepted,
   otherwise the error to hand back to the caller.
   */
  type Validator = seq<LineItem> -> Option<ValidationError>

  /** The `message` of a successful call. */
  datatype Payload =
    | AllSales(sales: map<int, seq<LineItem>>)
    | SaleItems(items: seq<LineItem>)
    | Created(id: int, itemsSold: seq<LineItem>)
    | Updated(saleId: int, itemsUpdated: seq<LineItem>)
    | Text(text: string)

  /**
   The result of a service call: `Success` is `type: null`, `Failure` a
   tagged error, and `Rejected` a call whose promise rejects because the
   code indexed past the end of an array and read or wrote a field of
   `undefined`.
   */
  datatype Response =
    | Success(payload: Payload)
    | Failure(tag: Tag, message: string)
    | Rejected

  const SaleNotFoundResponse: Response := Failure(SaleNotFound, "Sale not found")
  const ProductNotFoundResponse: Response := Failure(ProductNotFound, "Product not found")

  /** The product ids of a list of line items, in order. */
  function ProductIds(items: seq<LineItem>): (ids: seq<int>)
    ensures |ids| == |items|
    ensures forall i :: 0 <= i < |items| ==> ids[i] == items[i].productId
    ensures forall x :: x in ids <==> exists j :: 0 <= j < |items| && items[j].productId == x
  {
    seq(|items|, i requires 0 <= i < |items| => items[i].productId)
  }
}
