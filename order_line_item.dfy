/** Order line items: one menu item ordered in some quantity, the money
    arithmetic on it, and the total of a list of line items. */
module OrderLineItems {
  import opened Common

  /** The field values of a line item. Lists of line items (in an order, in
      order details, in events) are modelled by these values; two values are
      equal exactly when all four fields are, as with the source's reflective
      `equals`. */
  datatype LineItem = LineItem(menuItemId: string, name: string, price: Money, quantity: Int32)
  {
    /** `getTotal()`: the price times the quantity. */
    function Total(): (total: Money)
      ensures quantity == 0 ==> total == 0
      ensures quantity == 1 ==> total == price
      ensures price >= 0 && quantity >= 0 ==> total >= 0
    {
      price * quantity
    }

    /** `deltaForChangedQuantity(n)`: the price times `n - quantity`, where the
        subtraction is Java `int` arithmetic and so wraps around. */
    function DeltaForChangedQuantity(newQuantity: Int32): (delta: Money)
      ensures InInt32(newQuantity - quantity) ==> Total() + delta == this.(quantity := newQuantity).Total()
      ensures newQuantity == quantity ==> delta == 0
    {
      price * Wrap32(newQuantity - quantity)
    }
  }

  /** The delta of a quantity change is exact whenever the change in quantity
      fits in an `int`: the old total plus the delta is the new total. */
  lemma DeltaMatchesNewTotal(li: LineItem, newQuantity: Int32)
    requires InInt32(newQuantity - li.quantity)
    ensures li.Total() + li.DeltaForChangedQuantity(newQuantity) == li.(quantity := newQuantity).Total()
  {
  }

  /** Quantities that are never negative never make the change wrap. */
  lemma NonNegativeQuantitiesDoNotWrap(quantity: Int32, newQuantity: Int32)
    requires 0 <= quantity && 0 <= newQuantity
    ensures InInt32(newQuantity - quantity)
    ensures Wrap32(newQuantity - quantity) == newQuantity - quantity
  {
    assert InInt32(quantity) && InInt32(newQuantity);
  }

  /** An unchanged quantity produces no delta. */
  lemma UnchangedQuantityHasNoDelta(li: LineItem)
    ensures li.DeltaForChangedQuantity(li.quantity) == 0
  {
  }

  /** With a negative quantity the `int` subtraction can wrap, and then the
      delta is not the change in total. */
  lemma WrappedDeltaMissesNewTotal()
    ensures var li := LineItem("m", "n", 1, -1);
            li.Total() + li.DeltaForChangedQuantity(IntMax) != li.(quantity := IntMax).Total()
  {
  }

  /** The total of an order's line items: the sum of the line totals. */
  function OrderTotal(items: seq<LineItem>): (total: Money)
    ensures items == [] ==> total == 0
    ensures |items| == 1 ==> total == items[0].Total()
  {
    if items == [] then 0 else items[0].Total() + OrderTotal(items[1..])
  }

  /** Line totals that are never negative make an order total that is never negative. */
  lemma {:induction false} OrderTotalIsNonNegative(items: seq<LineItem>)
    requires forall i :: 0 <= i < |items| ==> items[i].Total() >= 0
    ensures OrderTotal(items) >= 0
  {
    if items != [] {
      assert forall i :: 1 <= i < |items| ==> items[1..][i - 1] == items[i];
      OrderTotalIsNonNegative(items[1..]);
    }
  }

  /** The total of two lists joined is the sum of their totals. */
  lemma {:induction false} OrderTotalConcat(a: seq<LineItem>, b: seq<LineItem>)
    ensures OrderTotal(a + b) == OrderTotal(a) + OrderTotal(b)
  {
    if a != [] {
      assert (a + b)[0] == a[0] && (a + b)[1..] == a[1..] + b;
      OrderTotalConcat(a[1..], b);
    } else {
      assert a + b == b;
    }
  }

  /** Changing the quantity of one line moves the order total by exactly that
      line's delta, so totals can be kept by folding deltas. */
  lemma {:induction false} OrderTotalAfterQuantityChange(items: seq<LineItem>, i: nat, newQuantity: Int32)
    requires i < |items|
    requires InInt32(newQuantity - items[i].quantity)
    ensures OrderTotal(items[i := items[i].(quantity := newQuantity)])
            == OrderTotal(items) + items[i].DeltaForChangedQuantity(newQuantity)
  {
    var changed := items[i := items[i].(quantity := newQuantity)];
    if i == 0 {
      assert changed[1..] == items[1..];
      DeltaMatchesNewTotal(items[0], newQuantity);
    } else {
      assert changed[1..] == items[1..][i - 1 := items[i].(quantity := newQuantity)];
      OrderTotalAfterQuantityChange(items[1..], i - 1, newQuantity);
    }
  }

  /** An `OrderLineItem` object, whose setters change its fields in place. */
  class OrderLineItem {
    var quantity: Int32
    var menuItemId: string
    var name: string
    var price: Money

    /** The current field values. */
    function Value(): LineItem
      reads this
    {
      LineItem(menuItemId, name, price, quantity)
    }

    constructor (menuItemId: string, name: string, price: Money, quantity: Int32)
      ensures this.menuItemId == menuItemId && this.name == name
      ensures this.price == price && this.quantity == quantity
    {
      this.menuItemId := menuItemId;
      this.name := name;
      this.price := price;
      this.quantity := quantity;
    }

    function GetTotal(): (total: Money)
      reads this
      ensures total == Value().Total()
    {
      Value().Total()
    }

    function DeltaForChangedQuantity(newQuantity: Int32): (delta: Money)
      reads this
      ensures delta == Value().DeltaForChangedQuantity(newQuantity)
    {
      Value().DeltaForChangedQuantity(newQuantity)
    }

    /** Reflective equality: the same values in all four fields. */
    predicate Equals(other: OrderLineItem)
      reads this, other
      ensures Equals(other) <==> Value() == other.Value()
    {
      quantity == other.quantity && menuItemId == other.menuItemId &&
      name == other.name && price == other.price
    }

    /** Changes only the quantity; when the change fits in an `int`, the new
        total is the old total plus the delta computed beforehand. */
    method SetQuantity(newQuantity: Int32)
      modifies this`quantity
      ensures quantity == newQuantity
      ensures InInt32(newQuantity - old(quantity)) ==>
                GetTotal() == old(GetTotal()) + old(DeltaForChangedQuantity(newQuantity))
    {
      ghost var before := Value();
      quantity := newQuantity;
      if InInt32(newQuantity - before.quantity) {
        DeltaMatchesNewTotal(before, newQuantity);
      }
    }

    method SetMenuItemId(newMenuItemId: string)
      modifies this`menuItemId
      ensures menuItemId == newMenuItemId
    {
      menuItemId := newMenuItemId;
    }

    method SetName(newName: string)
      modifies this`name
      ensures name == newName
    {
      name := newName;
    }

    method SetPrice(newPrice: Money)
      modifies this`price
      ensures price == newPrice
    {
      price := newPrice;
    }
  }
}
