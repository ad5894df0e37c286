/**
 One product line of a sale: the quantity-tiered discount policy and the
 line's discount and total, which are always recomputed together from the
 quantity and the unit price.
 */
module SaleItems {

  /**
   A sale line. `id` is assigned by persistence and is 0 on a freshly built
   item; `discount` and `total` are derived from `quantity` and `unitPrice`.
   */
  datatype SaleItem = SaleItem(
    id: int,
    productId: int,
    productName: string,
    quantity: int,
    unitPrice: real,
    discount: real,
    total: real)

  /** The undiscounted amount of a line: unit price times quantity. */
  function Gross(quantity: int, unitPrice: real): real
  {
    unitPrice * quantity as real
  }

  /**
   The discount rate of the policy, tier by tier: 20% for 10 to 20 units,
   10% for any other quantity of at least 4 (so also above 20), none below 4.
   */
  function DiscountRate(quantity: int): (rate: real)
    ensures rate == 0.20 <==> 10 <= quantity <= 20
    ensures rate == 0.10 <==> 4 <= quantity && !(10 <= quantity <= 20)
    ensures rate == 0.0 <==> quantity < 4
  {
    if quantity < 4 then 0.0
    else if quantity <= 9 || 20 < quantity then 0.10
    else 0.20
  }

  /**
   The discount of a line, branch for branch as the item computes it. It is
   the gross amount scaled by the tier's rate.
   */
  function CalculateDiscount(quantity: int, unitPrice: real): (discount: real)
    ensures discount == Gross(quantity, unitPrice) * DiscountRate(quantity)
    ensures 10 <= quantity <= 20 ==> discount == unitPrice * quantity as real * 0.20
    ensures 20 < quantity ==> discount == unitPrice * quantity as real * 0.10
    ensures 4 <= quantity < 10 ==> discount == unitPrice * quantity as real * 0.10
    ensures quantity < 4 ==> discount == 0.0
  {
    if quantity >= 10 && quantity <= 20 then unitPrice * quantity as real * 0.20
    else if quantity >= 4 then unitPrice * quantity as real * 0.10
    else 0.0
  }

  /** The line total left once the discount is taken off the gross amount. */
  function CalculateTotal(quantity: int, unitPrice: real, discount: real): real
  {
    Gross(quantity, unitPrice) - discount
  }

  /**
   An item whose derived fields agree with its quantity and unit price: every
   item built by `NewItem` or `UpdateItem` is one.
   */
  predicate Consistent(item: SaleItem)
  {
    && item.discount == CalculateDiscount(item.quantity, item.unitPrice)
    && item.total == CalculateTotal(item.quantity, item.unitPrice, item.discount)
  }

  /**
   The four-argument constructor: stores its arguments unchanged and derives
   discount and total. It validates nothing.
   */
  function NewItem(productId: int, productName: string, quantity: int, unitPrice: real): (item: SaleItem)
    ensures item.id == 0
    ensures item.productId == productId && item.productName == productName
    ensures item.quantity == quantity && item.unitPrice == unitPrice
    ensures item.discount == Gross(quantity, unitPrice) * DiscountRate(quantity)
    ensures item.total == Gross(quantity, unitPrice) - item.discount
    ensures item.total == Gross(quantity, unitPrice) * (1.0 - DiscountRate(quantity))
    ensures Consistent(item)
  {
    var discount := CalculateDiscount(quantity, unitPrice);
    SaleItem(0, productId, productName, quantity, unitPrice, discount,
             CalculateTotal(quantity, unitPrice, discount))
  }

  /**
   Replaces every field but the id and recomputes discount and total from
   scratch: the result is the freshly constructed item, keeping the old id.
   */
  function UpdateItem(item: SaleItem, productId: int, productName: string, quantity: int, unitPrice: real)
    : (updated: SaleItem)
    ensures updated.id == item.id
    ensures updated == NewItem(productId, productName, quantity, unitPrice).(id := item.id)
    ensures Consistent(updated)
  {
    var discount := CalculateDiscount(quantity, unitPrice);
    item.(productId := productId, productName := productName, quantity := quantity,
          unitPrice := unitPrice, discount := discount,
          total := CalculateTotal(quantity, unitPrice, discount))
  }

  /**
   Updating is not incremental: two items with the same id end up identical
   after the same update, whatever their earlier fields were.
   */
  lemma UpdateItemForgetsEarlierState(a: SaleItem, b: SaleItem, productId: int, productName: string,
                                      quantity: int, unitPrice: real)
    requires a.id == b.id
    ensures UpdateItem(a, productId, productName, quantity, unitPrice)
         == UpdateItem(b, productId, productName, quantity, unitPrice)
  {
  }

  /** Lowering the quantity below 4 removes the discount altogether. */
  lemma UpdateBelowFourRemovesDiscount(item: SaleItem, productId: int, productName: string,
                                       quantity: int, unitPrice: real)
    requires quantity < 4
    ensures UpdateItem(item, productId, productName, quantity, unitPrice).discount == 0.0
    ensures UpdateItem(item, productId, productName, quantity, unitPrice).total == Gross(quantity, unitPrice)
  {
  }

  /**
   For a non-negative price and quantity the discount and the total of a
   consistent item both lie between 0 and the gross amount.
   */
  lemma ItemAmountsBounded(item: SaleItem)
    requires Consistent(item)
    requires item.unitPrice >= 0.0 && item.quantity >= 0
    ensures 0.0 <= item.discount <= Gross(item.quantity, item.unitPrice)
    ensures 0.0 <= item.total <= Gross(item.quantity, item.unitPrice)
  {
  }
}
