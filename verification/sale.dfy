/**
 The Sale aggregate: header fields, the ordered item list, the derived total
 and the cancelled flag, with the constructor, `AddItem` and `Cancel`.

 Invariant kept by the constructor, `AddItem` and `Cancel`: the total amount
 is the sum of the item totals (`TotalMatchesItems`). Changing an item in
 place, which the public item list allows, bypasses it. Items added through
 `AddItem` also respect the quantity limits; items handed to the constructor
 are not checked.
 */
module Sales {
  import opened DomainTypes
  import opened SaleItems

  /** Smallest quantity `AddItem` accepts. */
  const MinQuantity: int := 1

  /** Largest quantity `AddItem` accepts. */
  const MaxQuantity: int := 20

  /**
   A sale. `id` is assigned by persistence and is 0 on a freshly built sale;
   customer and branch are denormalized id-and-name snapshots.
   */
  datatype Sale = Sale(
    id: int,
    saleNumber: string,
    date: Timestamp,
    customerId: int,
    customerName: string,
    branchId: int,
    branchName: string,
    totalAmount: real,
    cancelled: bool,
    items: seq<SaleItem>)

  /** The sum of the item totals: the reference meaning of a sale's total. */
  function SumTotals(items: seq<SaleItem>): real
  {
    if |items| == 0 then 0.0 else items[0].total + SumTotals(items[1..])
  }

  /** The aggregate invariant: the stored total is the sum of the item totals. */
  predicate TotalMatchesItems(s: Sale)
  {
    s.totalAmount == SumTotals(s.items)
  }

  /** Every item's quantity lies within the limits `AddItem` enforces. */
  predicate QuantitiesWithinLimits(items: seq<SaleItem>)
  {
    forall i :: 0 <= i < |items| ==> MinQuantity <= items[i].quantity <= MaxQuantity
  }

  /** Appending one item adds exactly its total to the sum. */
  lemma {:induction false} SumTotalsAppend(items: seq<SaleItem>, item: SaleItem)
    ensures SumTotals(items + [item]) == SumTotals(items) + item.total
    decreases |items|
  {
    if |items| == 0 {
      assert items + [item] == [item];
    } else {
      assert (items + [item])[1..] == items[1..] + [item];
      SumTotalsAppend(items[1..], item);
    }
  }

  /**
   The left-to-right summation `Items.Sum(i => i.Total)` the sale performs in
   its constructor and again in `AddItem`, as a loop that accumulates one item
   total at a time. It equals `SumTotals`, which is why `NewSale` and
   `AddItem` use `SumTotals` for both sums.
   */
  method ComputeTotal(items: seq<SaleItem>) returns (total: real)
    ensures total == SumTotals(items)
  {
    total := 0.0;
    var i := 0;
    while i < |items|
      invariant 0 <= i <= |items|
      invariant total == SumTotals(items[..i])
    {
      assert items[..i + 1] == items[..i] + [items[i]];
      SumTotalsAppend(items[..i], items[i]);
      total := total + items[i].total;
      i := i + 1;
    }
    assert items[..i] == items;
  }

  /**
   A sale of consistent items with non-negative prices and quantities has a
   non-negative total.
   */
  lemma {:induction false} SumTotalsNonNegative(items: seq<SaleItem>)
    requires forall i :: 0 <= i < |items| ==> Consistent(items[i])
    requires forall i :: 0 <= i < |items| ==> items[i].unitPrice >= 0.0 && items[i].quantity >= 0
    ensures SumTotals(items) >= 0.0
    decreases |items|
  {
    if |items| > 0 {
      ItemAmountsBounded(items[0]);
      assert forall i :: 0 <= i < |items[1..]| ==> items[1..][i] == items[i + 1];
      SumTotalsNonNegative(items[1..]);
    }
  }

  /**
   The constructor: copies the header fields, replaces a null item list by an
   empty one, sums the item totals and starts out not cancelled. The supplied
   items are taken as they are, without any quantity check.
   */
  function NewSale(saleNumber: string, date: Timestamp, customerId: int, customerName: string,
                   branchId: int, branchName: string, items: Option<seq<SaleItem>>): (s: Sale)
    ensures s.id == 0
    ensures s.saleNumber == saleNumber && s.date == date
    ensures s.customerId == customerId && s.customerName == customerName
    ensures s.branchId == branchId && s.branchName == branchName
    ensures !s.cancelled
    ensures items.Some? ==> s.items == items.value
    ensures items.None? ==> s.items == [] && s.totalAmount == 0.0
    ensures TotalMatchesItems(s)
  {
    var list := if items.Some? then items.value else [];
    Sale(0, saleNumber, date, customerId, customerName, branchId, branchName,
         SumTotals(list), false, list)
  }

  /** The constructor does not validate quantities: any item of more than 20 units is kept. */
  lemma ConstructorKeepsUnvalidatedItems(item: SaleItem)
    requires item.quantity > MaxQuantity
    ensures !QuantitiesWithinLimits(NewSale("", 0, 0, "", 0, "", Some([item])).items)
  {
  }

  /**
   The sale's own copy of the discount rule. The sale hands this amount to the
   item it creates, so it has to agree with the item's rule, and it does for
   every quantity and price.
   */
  function CalculateDiscount(quantity: int, unitPrice: real): (discount: real)
    ensures discount == SaleItems.CalculateDiscount(quantity, unitPrice)
  {
    if quantity >= 10 && quantity <= 20 then unitPrice * quantity as real * 0.20
    else if quantity >= 4 then unitPrice * quantity as real * 0.10
    else 0.0
  }

  /**
   Adds one line. A quantity below 1 is a validation error; above 20 it is a
   business-rule violation naming the product and the quantity. Otherwise the
   new item is appended after the existing ones and the total is summed again.
   On an error the caller's sale is left as it was. A cancelled sale still
   accepts items.
   */
  function AddItem(s: Sale, productId: int, productName: string, quantity: int, unitPrice: real)
    : (r: Result<Sale>)
    ensures quantity < MinQuantity <==> r == Err(ValidationError)
    ensures quantity > MaxQuantity <==> r == Err(BusinessRuleViolation(productName, quantity))
    ensures r.Ok? <==> MinQuantity <= quantity <= MaxQuantity
    ensures r.Ok? ==>
      && |r.value.items| == |s.items| + 1
      && r.value.items[..|s.items|] == s.items
      && r.value.items[|s.items|] == NewItem(productId, productName, quantity, unitPrice)
      && r.value.items[|s.items|].discount == CalculateDiscount(quantity, unitPrice)
    ensures r.Ok? ==> TotalMatchesItems(r.value)
    ensures r.Ok? && TotalMatchesItems(s) ==>
      r.value.totalAmount == s.totalAmount + r.value.items[|s.items|].total
    ensures r.Ok? ==> r.value.(items := s.items, totalAmount := s.totalAmount) == s
  {
    if quantity < MinQuantity then Err(ValidationError)
    else if quantity > MaxQuantity then Err(BusinessRuleViolation(productName, quantity))
    else
      var item := NewItem(productId, productName, quantity, unitPrice);
      var items := s.items + [item];
      SumTotalsAppend(s.items, item);
      Ok(s.(items := items, totalAmount := SumTotals(items)))
  }

  /** `AddItem` keeps every item's quantity within the limits if they were. */
  lemma AddItemKeepsQuantitiesWithinLimits(s: Sale, productId: int, productName: string,
                                           quantity: int, unitPrice: real)
    requires QuantitiesWithinLimits(s.items)
    requires AddItem(s, productId, productName, quantity, unitPrice).Ok?
    ensures QuantitiesWithinLimits(AddItem(s, productId, productName, quantity, unitPrice).value.items)
  {
  }

  /** Sets the cancelled flag. It never fails and changes nothing else. */
  function Cancel(s: Sale): (r: Sale)
    ensures r.cancelled
    ensures r.(cancelled := s.cancelled) == s
    ensures TotalMatchesItems(r) <==> TotalMatchesItems(s)
  {
    s.(cancelled := true)
  }

  /** Cancelling twice is the same as cancelling once. */
  lemma CancelIdempotent(s: Sale)
    ensures Cancel(Cancel(s)) == Cancel(s)
  {
  }

  /** Replacing one item changes the sum by the difference of the two totals. */
  lemma {:induction false} SumTotalsReplace(items: seq<SaleItem>, i: int, item: SaleItem)
    requires 0 <= i < |items|
    ensures SumTotals(items[i := item]) == SumTotals(items) - items[i].total + item.total
    decreases |items|
  {
    if i > 0 {
      assert items[i := item][1..] == items[1..][i - 1 := item];
      SumTotalsReplace(items[1..], i - 1, item);
    } else {
      assert items[i := item][1..] == items[1..];
    }
  }

  /**
   Updating an item of a sale in place, as the public item list and the
   public item update allow, does not sum the total again: whenever the
   update changes that item's total, the sale no longer keeps its invariant.
   */
  lemma InPlaceItemUpdateBreaksTotal(s: Sale, i: int, productId: int, productName: string,
                                     quantity: int, unitPrice: real)
    requires TotalMatchesItems(s)
    requires 0 <= i < |s.items|
    requires UpdateItem(s.items[i], productId, productName, quantity, unitPrice).total != s.items[i].total
    ensures !TotalMatchesItems(
      s.(items := s.items[i := UpdateItem(s.items[i], productId, productName, quantity, unitPrice)]))
  {
    SumTotalsReplace(s.items, i, UpdateItem(s.items[i], productId, productName, quantity, unitPrice));
  }

  /** A cancelled sale still accepts valid items and stays cancelled. */
  lemma CancelledSaleAcceptsItems(s: Sale, productId: int, productName: string,
                                  quantity: int, unitPrice: real)
    requires MinQuantity <= quantity <= MaxQuantity
    ensures AddItem(Cancel(s), productId, productName, quantity, unitPrice).Ok?
    ensures AddItem(Cancel(s), productId, productName, quantity, unitPrice).value.cancelled
  {
  }

  /** One line a caller asks to add: product, quantity and unit price. */
  datatype ItemLine = ItemLine(productId: int, productName: string, quantity: int, unitPrice: real)

  /** The item `AddItem` builds for a line. */
  function LineItem(line: ItemLine): SaleItem
  {
    NewItem(line.productId, line.productName, line.quantity, line.unitPrice)
  }

  /** Every line's quantity is one `AddItem` accepts. */
  predicate LinesWithinLimits(lines: seq<ItemLine>)
  {
    forall i :: 0 <= i < |lines| ==> MinQuantity <= lines[i].quantity <= MaxQuantity
  }

  /**
   Adds the lines one after another, in order, as a caller adding every line
   of a request does; an error from `AddItem` propagates at once, so the
   lines after the first rejected one are not added. On success the earlier
   items are kept, line k becomes the item at position |s.items| + k, and the
   header fields and flag are unchanged.
   */
  function AddEach(s: Sale, lines: seq<ItemLine>): (r: Result<Sale>)
    ensures r.Ok? ==>
      && |r.value.items| == |s.items| + |lines|
      && r.value.items[..|s.items|] == s.items
    ensures r.Ok? ==> forall k :: 0 <= k < |lines| ==> r.value.items[|s.items| + k] == LineItem(lines[k])
    ensures r.Ok? ==> r.value.(items := s.items, totalAmount := s.totalAmount) == s
    decreases |lines|
  {
    if |lines| == 0 then Ok(s)
    else
      match AddItem(s, lines[0].productId, lines[0].productName, lines[0].quantity, lines[0].unitPrice)
      case Err(e) => Err(e)
      case Ok(t) =>
        var r := AddEach(t, lines[1..]);
        assert r.Ok? ==> forall k :: 0 <= k < |lines| ==> r.value.items[|s.items| + k] == LineItem(lines[k]) by {
          if r.Ok? {
            forall k | 0 <= k < |lines|
              ensures r.value.items[|s.items| + k] == LineItem(lines[k])
            {
              if k == 0 {
                assert r.value.items[|s.items|] == r.value.items[..|t.items|][|s.items|];
              } else {
                assert lines[k] == lines[1..][k - 1];
              }
            }
            assert r.value.items[..|s.items|] == r.value.items[..|t.items|][..|s.items|];
          }
        }
        r
  }

  /**
   A failed sequence of additions fails with the error of its first rejected
   line: every line before it is within the limits.
   */
  lemma {:induction false} AddEachStopsAtFirstRejectedLine(s: Sale, lines: seq<ItemLine>)
    requires AddEach(s, lines).Err?
    ensures exists k :: (
      && 0 <= k < |lines|
      && LinesWithinLimits(lines[..k])
      && !(MinQuantity <= lines[k].quantity <= MaxQuantity)
      && AddEach(s, lines).error == AddItem(s, lines[k].productId, lines[k].productName,
                                            lines[k].quantity, lines[k].unitPrice).error)
    decreases |lines|
  {
    var l := lines[0];
    var r := AddItem(s, l.productId, l.productName, l.quantity, l.unitPrice);
    if r.Err? {
      assert LinesWithinLimits(lines[..0]);
    } else {
      AddEachStopsAtFirstRejectedLine(r.value, lines[1..]);
      var k :| 0 <= k < |lines[1..]| && LinesWithinLimits(lines[1..][..k])
        && !(MinQuantity <= lines[1..][k].quantity <= MaxQuantity)
        && AddEach(r.value, lines[1..]).error
           == AddItem(r.value, lines[1..][k].productId, lines[1..][k].productName,
                      lines[1..][k].quantity, lines[1..][k].unitPrice).error;
      assert lines[k + 1] == lines[1..][k];
      var prefix := lines[..k + 1];
      forall i | 0 <= i < |prefix|
        ensures MinQuantity <= prefix[i].quantity <= MaxQuantity
      {
        if i > 0 {
          assert prefix[i] == lines[1..][..k][i - 1];
        }
      }
    }
  }

  /**
   Over any sequence of additions: it succeeds exactly when every quantity is
   within the limits; the result keeps the earlier items, gains one item per
   line, keeps the total equal to the sum of item totals and keeps all
   quantities within the limits.
   */
  lemma {:induction false} AddEachPreservesInvariants(s: Sale, lines: seq<ItemLine>)
    requires TotalMatchesItems(s)
    requires QuantitiesWithinLimits(s.items)
    ensures AddEach(s, lines).Ok? <==> LinesWithinLimits(lines)
    ensures AddEach(s, lines).Ok? ==>
      && TotalMatchesItems(AddEach(s, lines).value)
      && QuantitiesWithinLimits(AddEach(s, lines).value.items)
      && |AddEach(s, lines).value.items| == |s.items| + |lines|
      && AddEach(s, lines).value.items[..|s.items|] == s.items
    decreases |lines|
  {
    if |lines| > 0 {
      var l := lines[0];
      var r := AddItem(s, l.productId, l.productName, l.quantity, l.unitPrice);
      if r.Ok? {
        AddItemKeepsQuantitiesWithinLimits(s, l.productId, l.productName, l.quantity, l.unitPrice);
        AddEachPreservesInvariants(r.value, lines[1..]);
        assert LinesWithinLimits(lines) <==> LinesWithinLimits(lines[1..]) by {
          if LinesWithinLimits(lines[1..]) {
            forall i | 0 <= i < |lines|
              ensures MinQuantity <= lines[i].quantity <= MaxQuantity
            {
              if i > 0 {
                assert lines[i] == lines[1..][i - 1];
              }
            }
          }
          if LinesWithinLimits(lines) {
            forall i | 0 <= i < |lines[1..]|
              ensures MinQuantity <= lines[1..][i].quantity <= MaxQuantity
            {
              assert lines[1..][i] == lines[i + 1];
            }
          }
        }
        if AddEach(s, lines).Ok? {
          var t := AddEach(s, lines).value;
          assert t == AddEach(r.value, lines[1..]).value;
          assert t.items[..|s.items|] == t.items[..|r.value.items|][..|s.items|];
        }
      } else {
        assert !(MinQuantity <= lines[0].quantity <= MaxQuantity);
      }
    }
  }

  /**
   A sale built empty and then given lines one by one keeps both invariants:
   the total is the sum of the item totals and every quantity is within 1..20.
   */
  lemma BuiltSaleSatisfiesInvariants(saleNumber: string, date: Timestamp, customerId: int,
                                     customerName: string, branchId: int, branchName: string,
                                     lines: seq<ItemLine>)
    requires LinesWithinLimits(lines)
    ensures AddEach(NewSale(saleNumber, date, customerId, customerName, branchId, branchName, Some([])), lines).Ok?
    ensures var t := AddEach(NewSale(saleNumber, date, customerId, customerName, branchId, branchName, Some([])), lines).value;
      && TotalMatchesItems(t) && QuantitiesWithinLimits(t.items) && |t.items| == |lines|
  {
    AddEachPreservesInvariants(NewSale(saleNumber, date, customerId, customerName, branchId, branchName, Some([])), lines);
  }
}
