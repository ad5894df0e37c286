# Sales service: Sale domain model in Dafny

A model of the pricing and validation rules of the sales service's Sale
domain: the quantity-tiered discount of a sale line (`SaleItem`), the Sale
aggregate with its constructor, `AddItem` and `Cancel`, and the four domain
event records built as snapshots of a sale or of one of its items.

Modules, one per part of the domain:

- `DomainTypes` (`domain_types.dfy`): `Option` for the nullable item list,
  the error kinds, `Result` for an operation that may fail, and `Timestamp`
  for a `DateTime`. The domain raises only `ValidationError` (an
  `ArgumentException`) and `BusinessRuleViolation` (an
  `InvalidOperationException`); `ResourceNotFound` mirrors the web layer's
  third error kind (`src/SalesService.Api/Middleware/GlobalExceptionHandlerMiddleware.cs`
  lines 65-67), which only the application's handlers raise, and no modelled
  operation returns it.
- `SaleItems` (`sale_item.dfy`): the discount policy, the item constructor
  and `UpdateItem`.
- `Sales` (`sale.dfy`): the aggregate, its invariant
  (`TotalAmount == Σ item.Total`), the quantity limits, and `AddEach`, the
  loop of `AddItem` calls the create and update command handlers run over the
  requested lines.
- `SaleEvents` (`sale_events.dfy`): the created, modified, cancelled and
  item-cancelled events.

Money is `real` (C# `decimal` arithmetic here is exact in the ranges that
matter); instants are integers; objects with private setters become immutable
datatypes, and every mutating method becomes a function returning the new
value, or a `Result` when the method can throw.

Behaviour of the code that a reader might not expect, kept as written:

- `Cancel` sets the flag unconditionally; there is no "already cancelled"
  rejection, so cancelling twice is a successful no-op. The repository's own
  test `tests/Domain/Entities/SaleDomainEventsTests.cs` (lines 48-59) expects
  a second `Cancel` to throw `InvalidOperationException("Sale is already
  cancelled.")`, which `src/SalesService.Domain/Entities/Sale.cs` (lines
  88-91) never throws.
- The discount rule is total over all integers: quantities above 20 get the
  10% tier and quantities of 3 or less, including zero and negatives, get none.
- The constructor does not check item quantities; only `AddItem` enforces
  1..20, so the quantity invariant holds for items added through `AddItem`
  but not for items given to the constructor.
- `src/SalesService.Domain/Entities/Sale.cs` line 64 calls a five-argument
  `SaleItem` constructor (passing the discount the sale computed) that does
  not exist; the item type only has the four-argument constructor. The model
  builds the item with the four-argument rule and proves that the discount the
  sale computes equals the one the item computes, so both readings agree.
- The total invariant is kept by the constructor, `AddItem` and `Cancel`
  only. The item list is a public mutable `List<SaleItem>` and
  `SaleItem.UpdateItem` is public, so a caller can change an item or the
  list's membership without the total being summed again;
  `Sales.InPlaceItemUpdateBreaksTotal` exhibits such a sale.

## Model

| member | source | states |
|---|---|---|
| SaleItems.DiscountRate | src/SalesService.Domain/Entities/SaleItem.cs:51-58 | the rate is 20% exactly for 10..20 units, 10% exactly for at least 4 units outside 10..20 (so also above 20), and 0 exactly below 4 |
| SaleItems.CalculateDiscount | src/SalesService.Domain/Entities/SaleItem.cs:51-58 | the discount is the gross amount times the tier rate: 0.20·p·q for q in 10..20, 0.10·p·q for 4..9 and above 20, 0 below 4 |
| SaleItems.NewItem | src/SalesService.Domain/Entities/SaleItem.cs:16-33 | product id, name, quantity and unit price are stored unchanged, id is 0, total is p·q − discount and equals p·q·(1 − rate(q)), and the item is consistent |
| SaleItems.UpdateItem | src/SalesService.Domain/Entities/SaleItem.cs:38-46 | the updated item keeps its id and is otherwise exactly the freshly constructed item for the same arguments |
| SaleItems.UpdateItemForgetsEarlierState | src/SalesService.Domain/Entities/SaleItem.cs:38-46 | the update is a from-scratch recompute: two items with the same id become identical under the same update |
| SaleItems.UpdateBelowFourRemovesDiscount | src/SalesService.Domain/Entities/SaleItem.cs:38-58 | updating to fewer than 4 units leaves discount 0 and total p·q |
| SaleItems.ItemAmountsBounded | src/SalesService.Domain/Entities/SaleItem.cs:26-58 | for a consistent item with p ≥ 0 and q ≥ 0, both discount and total lie in [0, p·q] |
| Sales.SumTotalsAppend | src/SalesService.Domain/Entities/Sale.cs:67 | appending an item adds exactly its total to the sum of item totals |
| Sales.ComputeTotal | src/SalesService.Domain/Entities/Sale.cs:41-67 | the left-to-right summation loop over the items (the `Items.Sum` of line 41 in the constructor and of line 67 in `AddItem`) yields the sum of the item totals, which is why the recursive sum stands in for both |
| Sales.SumTotalsNonNegative | src/SalesService.Domain/Entities/Sale.cs:41 | items that are consistent with non-negative prices and quantities sum to a non-negative total |
| Sales.NewSale | src/SalesService.Domain/Entities/Sale.cs:25-43 | header fields are copied, id is 0, the sale is not cancelled, a null item list becomes empty with total 0, and the total equals the sum of item totals |
| Sales.ConstructorKeepsUnvalidatedItems | src/SalesService.Domain/Entities/Sale.cs:40 | the constructor keeps an item of more than 20 units, so its items can break the quantity limits |
| Sales.CalculateDiscount | src/SalesService.Domain/Entities/Sale.cs:76-83 | the sale's private copy of the discount rule agrees with the item's rule for every quantity and price |
| Sales.AddItem | src/SalesService.Domain/Entities/Sale.cs:54-68 | q < 1 gives a validation error, q > 20 a business-rule violation naming product and quantity, otherwise success; on success exactly one item is appended after the unchanged earlier ones, its discount is the sale's own discount, the total equals the sum of item totals and grows by the new item's total, and no other field changes |
| Sales.AddItemKeepsQuantitiesWithinLimits | src/SalesService.Domain/Entities/Sale.cs:56-65 | if every item had 1..20 units before a successful AddItem, every item still has afterwards |
| Sales.Cancel | src/SalesService.Domain/Entities/Sale.cs:88-91 | the result is cancelled, every other field is unchanged, and the total invariant holds after exactly when it held before |
| Sales.CancelIdempotent | src/SalesService.Domain/Entities/Sale.cs:88-91 | cancelling twice equals cancelling once |
| Sales.InPlaceItemUpdateBreaksTotal | src/SalesService.Domain/Entities/SaleItem.cs:38-46 | for a sale keeping its invariant, updating one of its items in place through the public item update, with a change to that item's total, leaves the stored total different from the sum of item totals |
| Sales.CancelledSaleAcceptsItems | src/SalesService.Domain/Entities/Sale.cs:54-91 | a cancelled sale still accepts an item of 1..20 units and stays cancelled |
| Sales.AddEachPreservesInvariants | src/SalesService.Domain/Entities/Sale.cs:54-68 | a sequence of AddItem calls succeeds exactly when every quantity is in 1..20, and then keeps the earlier items, adds one item per line, and keeps both the total invariant and the quantity limits |
| Sales.AddEach | src/SalesService.Application/Commands/CreateSaleCommandHandler.cs:32-35 | on success the earlier items are kept, there is one new item per line, line k becomes the item at position (earlier count + k) built by the four-argument rule from that line, and header fields and flag are unchanged |
| Sales.AddEachStopsAtFirstRejectedLine | src/SalesService.Application/Commands/CreateSaleCommandHandler.cs:32-35 | a failed loop fails with the error AddItem gives for some line whose quantity is outside 1..20 while every line before it is within 1..20, i.e. the first rejected line's exception propagates |
| Sales.BuiltSaleSatisfiesInvariants | src/SalesService.Application/Commands/CreateSaleCommandHandler.cs:22-35 | a sale constructed empty and filled through AddItem with in-range lines has total = sum of item totals, all quantities in 1..20, and one item per line |
| SaleEvents.CreatedEvent | src/SalesService.Domain/Events/SaleCreatedEvent.cs:21-33 | sale id and header fields copied, sale date from the sale's date, total is the sale's total and so the sum of item totals for a sale keeping its invariant, items count is the number of items |
| SaleEvents.ModifiedEvent | src/SalesService.Domain/Events/SaleModifiedEvent.cs:22-35 | as the created event, plus the modification tag kept verbatim |
| SaleEvents.CancelledEvent | src/SalesService.Domain/Events/SaleCancelledEvent.cs:22-35 | as the created event, for any sale whatever its cancelled flag, with occurred-at and cancelled-at as independent clock inputs |
| SaleEvents.ItemCancelled | src/SalesService.Domain/Events/ItemCancelledEvent.cs:20-31 | sale id from the sale, item id, product, quantity and price from the item, total is the item's total (p·q·(1 − rate) for a consistent item), reason as given |
| SaleEvents.ItemCancelledDefaultReason | src/SalesService.Domain/Events/ItemCancelledEvent.cs:20 | with the reason omitted the event's reason is "Item removed" |
| SaleEvents.CreatedEventOfNewSale | src/SalesService.Domain/Events/SaleCreatedEvent.cs:23-32 | the created event of a newly constructed sale has id 0, total = sum of the supplied item totals, and count = number of supplied items |
| SaleEvents.SnapshotsTrackAddItem | src/SalesService.Domain/Events/SaleModifiedEvent.cs:32-33 | a created event built before AddItem keeps the old count and total, while the modified event built after it has one more item and the total grown by the new item's total |
| SaleEvents.CancelledEventIgnoresFlag | src/SalesService.Domain/Events/SaleCancelledEvent.cs:22-35 | the cancelled-sale event is the same whether built before or after Cancel |

## Left out

- Integer width and `decimal` limits: quantities and ids are unbounded
  integers and money is an exact `real`, so 32-bit overflow, `decimal`
  overflow and rounding are not modelled.
- Clock reads: `OccurredAt` and `CancelledAt` are parameters of the event
  functions instead of reads of the current time.
- Mutation in place: `UpdateItem`, `AddItem` and `Cancel` return new values;
  aliasing of the item list passed to the constructor (the sale keeps the
  caller's list object) is not modelled.
- The exposed item list: direct `Items.Add`, `Items.Clear` or an in-place
  `UpdateItem` on an item of a sale are not operations of the model; they
  bypass the total recomputation and the 1..20 check, so the model's
  invariant lemmas cover only the constructor, `AddItem` and `Cancel`
  (`Sales.InPlaceItemUpdateBreaksTotal` shows one such bypass).
- The EF Core parameterless constructors and database-assigned ids: ids are 0
  on freshly built items and sales.
- Operations the aggregate does not have in code (updating sale properties,
  updating or removing items through the sale, clearing items, an internal
  event log, rejection of a second cancel) are not modelled.
- The list query engine (filter, order, paginate): the query handler loads
  all sales and maps them without any filtering, so there is no logic to
  model.
- Command and query handlers, the HTTP controller and error middleware,
  persistence and the message bus are orchestration and I/O and are not part
  of this model, except for the handlers' loop that calls `AddItem` once per
  requested line, which is modelled as `Sales.AddEach`; the repository calls,
  the mapping to DTOs and the not-found lookup around it are left out. The
  `ResourceNotFound` error kind is declared only to mirror the error taxonomy.
- Localized exception messages: the business-rule error carries the product
  name and requested quantity its message names, not the text itself.
