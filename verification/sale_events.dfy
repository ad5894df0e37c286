/**
 The domain events as immutable snapshots. Each event is built from a sale
 (and, for a cancelled item, from one of its items) and copies values out of
 it, so a later change to the sale never reaches an event already built.
 The clock reads of the constructors are parameters.
 */
module SaleEvents {
  import opened DomainTypes
  import opened SaleItems
  import opened Sales

  /** Reason recorded when an item is cancelled and no reason is given. */
  const DefaultCancellationReason: string := "Item removed"

  datatype SaleCreatedEvent = SaleCreatedEvent(
    saleId: int,
    occurredAt: Timestamp,
    saleNumber: string,
    saleDate: Timestamp,
    customerId: int,
    customerName: string,
    branchId: int,
    branchName: string,
    totalAmount: real,
    itemsCount: nat)

  datatype SaleModifiedEvent = SaleModifiedEvent(
    saleId: int,
    occurredAt: Timestamp,
    saleNumber: string,
    saleDate: Timestamp,
    customerId: int,
    customerName: string,
    branchId: int,
    branchName: string,
    totalAmount: real,
    itemsCount: nat,
    modificationType: string)

  datatype SaleCancelledEvent = SaleCancelledEvent(
    saleId: int,
    occurredAt: Timestamp,
    saleNumber: string,
    saleDate: Timestamp,
    customerId: int,
    customerName: string,
    branchId: int,
    branchName: string,
    totalAmount: real,
    itemsCount: nat,
    cancelledAt: Timestamp)

  datatype ItemCancelledEvent = ItemCancelledEvent(
    saleId: int,
    occurredAt: Timestamp,
    itemId: int,
    productId: int,
    productName: string,
    quantity: int,
    unitPrice: real,
    totalAmount: real,
    cancellationReason: string)

  /**
   Snapshot of a sale at creation: identity and header copied, the total
   taken as stored (the sum of item totals for a sale that keeps its
   invariant) and the number of items.
   */
  function CreatedEvent(s: Sale, occurredAt: Timestamp): (e: SaleCreatedEvent)
    ensures e.saleId == s.id && e.occurredAt == occurredAt
    ensures e.saleNumber == s.saleNumber && e.saleDate == s.date
    ensures e.customerId == s.customerId && e.customerName == s.customerName
    ensures e.branchId == s.branchId && e.branchName == s.branchName
    ensures e.totalAmount == s.totalAmount
    ensures TotalMatchesItems(s) ==> e.totalAmount == SumTotals(s.items)
    ensures e.itemsCount == |s.items|
  {
    SaleCreatedEvent(s.id, occurredAt, s.saleNumber, s.date, s.customerId, s.customerName,
                     s.branchId, s.branchName, s.totalAmount, |s.items|)
  }

  /** Snapshot of a modified sale, carrying the caller's modification tag verbatim. */
  function ModifiedEvent(s: Sale, modificationType: string, occurredAt: Timestamp): (e: SaleModifiedEvent)
    ensures e.saleId == s.id && e.occurredAt == occurredAt
    ensures e.saleNumber == s.saleNumber && e.saleDate == s.date
    ensures e.customerId == s.customerId && e.customerName == s.customerName
    ensures e.branchId == s.branchId && e.branchName == s.branchName
    ensures e.totalAmount == s.totalAmount
    ensures TotalMatchesItems(s) ==> e.totalAmount == SumTotals(s.items)
    ensures e.itemsCount == |s.items|
    ensures e.modificationType == modificationType
  {
    SaleModifiedEvent(s.id, occurredAt, s.saleNumber, s.date, s.customerId, s.customerName,
                      s.branchId, s.branchName, s.totalAmount, |s.items|, modificationType)
  }

  /**
   Snapshot of a cancelled sale. It does not look at the cancelled flag, so
   it can be built from any sale. The two instants are separate clock reads.
   */
  function CancelledEvent(s: Sale, occurredAt: Timestamp, cancelledAt: Timestamp): (e: SaleCancelledEvent)
    ensures e.saleId == s.id && e.occurredAt == occurredAt && e.cancelledAt == cancelledAt
    ensures e.saleNumber == s.saleNumber && e.saleDate == s.date
    ensures e.customerId == s.customerId && e.customerName == s.customerName
    ensures e.branchId == s.branchId && e.branchName == s.branchName
    ensures e.totalAmount == s.totalAmount
    ensures TotalMatchesItems(s) ==> e.totalAmount == SumTotals(s.items)
    ensures e.itemsCount == |s.items|
  {
    SaleCancelledEvent(s.id, occurredAt, s.saleNumber, s.date, s.customerId, s.customerName,
                       s.branchId, s.branchName, s.totalAmount, |s.items|, cancelledAt)
  }

  /**
   Snapshot of one cancelled item: the sale gives only its id, everything
   else comes from the item, and the amount is the item's own total rather
   than the sale's. The reason defaults to "Item removed".
   */
  function ItemCancelled(s: Sale, item: SaleItem, occurredAt: Timestamp,
                         cancellationReason: string := DefaultCancellationReason)
    : (e: ItemCancelledEvent)
    ensures e.saleId == s.id && e.occurredAt == occurredAt
    ensures e.itemId == item.id && e.productId == item.productId && e.productName == item.productName
    ensures e.quantity == item.quantity && e.unitPrice == item.unitPrice
    ensures e.totalAmount == item.total
    ensures Consistent(item) ==>
      e.totalAmount == Gross(e.quantity, e.unitPrice) * (1.0 - DiscountRate(e.quantity))
    ensures e.cancellationReason == cancellationReason
  {
    ItemCancelledEvent(s.id, occurredAt, item.id, item.productId, item.productName,
                       item.quantity, item.unitPrice, item.total, cancellationReason)
  }

  /** Without a reason argument the item-cancelled event says "Item removed". */
  lemma ItemCancelledDefaultReason(s: Sale, item: SaleItem, occurredAt: Timestamp)
    ensures ItemCancelled(s, item, occurredAt).cancellationReason == "Item removed"
  {
  }

  /**
   The created event of a freshly constructed sale reports the sum of the
   supplied item totals and their number, and an id of 0 since persistence
   has not assigned one yet.
   */
  lemma CreatedEventOfNewSale(saleNumber: string, date: Timestamp, customerId: int,
                              customerName: string, branchId: int, branchName: string,
                              items: seq<SaleItem>, occurredAt: Timestamp)
    ensures var e := CreatedEvent(NewSale(saleNumber, date, customerId, customerName,
                                          branchId, branchName, Some(items)), occurredAt);
      && e.saleId == 0
      && e.totalAmount == SumTotals(items)
      && e.itemsCount == |items|
  {
  }

  /**
   A created event built before an item is added keeps the old count and
   total, while the modified event built after it reports one more item and
   the total grown by the new item's total.
   */
  lemma SnapshotsTrackAddItem(s: Sale, productId: int, productName: string,
                              quantity: int, unitPrice: real,
                              before: Timestamp, after: Timestamp)
    requires TotalMatchesItems(s)
    requires AddItem(s, productId, productName, quantity, unitPrice).Ok?
    ensures var created := CreatedEvent(s, before);
            var t := AddItem(s, productId, productName, quantity, unitPrice).value;
            var modified := ModifiedEvent(t, "Item added", after);
      && created.itemsCount == |s.items|
      && created.totalAmount == SumTotals(s.items)
      && modified.itemsCount == created.itemsCount + 1
      && modified.totalAmount
         == created.totalAmount + NewItem(productId, productName, quantity, unitPrice).total
      && modified.totalAmount == SumTotals(t.items)
  {
  }

  /**
   Cancelling changes nothing a cancelled-sale event records, so the event is
   the same whether it is built before or after `Cancel`.
   */
  lemma CancelledEventIgnoresFlag(s: Sale, occurredAt: Timestamp, cancelledAt: Timestamp)
    ensures CancelledEvent(Cancel(s), occurredAt, cancelledAt) == CancelledEvent(s, occurredAt, cancelledAt)
  {
  }
}
