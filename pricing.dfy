/**
 * Cart pricing (page.tsx `cartTotal`) and the price snapshot taken at
 * checkout (`createOrder`'s order lines). Prices are exact reals; the
 * floating-point rounding of JavaScript numbers is not modelled.
 */
module Pricing {
  import opened Optional
  import opened Entities

  /** JavaScript's `a || b` where `a` is an optional number: `a` unless it is absent or zero. */
  function OrElse(a: Option<real>, b: real): real
  {
    if a.Some? && a.value != 0.0 then a.value else b
  }

  /** `product?.discount_price` */
  function DiscountOf(p: Option<Product>): Option<real>
  {
    if p.Some? then p.value.discountPrice else None
  }

  /** `product?.price` */
  function PriceOf(p: Option<Product>): Option<real>
  {
    if p.Some? then Some(p.value.price) else None
  }

  /** The discount counts when it is present and non-zero (JavaScript truthiness). */
  predicate HasDiscount(p: Product)
  {
    p.discountPrice.Some? && p.discountPrice.value != 0.0
  }

  /** `discount_price || price || 0`: the price one unit of a line is charged at. */
  function UnitPrice(p: Option<Product>): (r: real)
    ensures p.None? ==> r == 0.0
    ensures p.Some? && HasDiscount(p.value) ==> r == p.value.discountPrice.value
    ensures p.Some? && !HasDiscount(p.value) ==> r == p.value.price
  {
    OrElse(DiscountOf(p), OrElse(PriceOf(p), 0.0))
  }

  function LineAmount(item: CartItem): real
  {
    UnitPrice(item.product) * (item.row.quantity as real)
  }

  /** `cartItems.reduce((total, item) => total + price * item.quantity, 0)`: a fold from the left. */
  function CartTotal(items: seq<CartItem>): real
  {
    if items == [] then 0.0 else CartTotal(items[..|items| - 1]) + LineAmount(items[|items| - 1])
  }

  /** Reference definition: the sum of the line amounts, first line first. */
  function LinesSum(items: seq<CartItem>): real
  {
    if items == [] then 0.0 else LineAmount(items[0]) + LinesSum(items[1..])
  }

  lemma {:induction false} LinesSumAppend(items: seq<CartItem>, last: CartItem)
    ensures LinesSum(items + [last]) == LinesSum(items) + LineAmount(last)
  {
    if items == [] {
      assert items + [last] == [last];
    } else {
      assert (items + [last])[1..] == items[1..] + [last];
      LinesSumAppend(items[1..], last);
    }
  }

  /** The cart total is the sum over the lines of unit price times quantity. */
  lemma {:induction false} CartTotalIsLinesSum(items: seq<CartItem>)
    ensures CartTotal(items) == LinesSum(items)
  {
    if items != [] {
      var init := items[..|items| - 1];
      CartTotalIsLinesSum(init);
      LinesSumAppend(init, items[|items| - 1]);
      assert init + [items[|items| - 1]] == items;
    }
  }

  /** The order line written for one cart line: its fields copied, its unit price captured now. */
  function OrderLineFor(id: Id, orderId: Id, item: CartItem): OrderItem
  {
    OrderItem(id, orderId, item.row.productId, item.row.quantity, item.row.size, item.row.color, UnitPrice(item.product))
  }

  /** `cartItems.map(...)` in createOrder; the store numbers the new rows from `firstId`. */
  function OrderLinesFor(orderId: Id, firstId: Id, items: seq<CartItem>): (r: seq<OrderItem>)
    ensures |r| == |items|
    decreases |items|
  {
    if items == [] then [] else [OrderLineFor(firstId, orderId, items[0])] + OrderLinesFor(orderId, firstId + 1, items[1..])
  }

  /**
   * Line `i` of a checkout copies cart line `i` (product, quantity, size,
   * colour), captures its unit price, belongs to the order and takes id
   * `firstId + i`.
   */
  lemma {:induction false} OrderLinesCopyCart(orderId: Id, firstId: Id, items: seq<CartItem>)
    ensures forall i :: 0 <= i < |items| ==>
      var x := OrderLinesFor(orderId, firstId, items)[i];
      && x.id == firstId + i && x.orderId == orderId
      && x.productId == items[i].row.productId && x.quantity == items[i].row.quantity
      && x.size == items[i].row.size && x.color == items[i].row.color
      && x.price == UnitPrice(items[i].product)
    decreases |items|
  {
    if items != [] {
      OrderLinesCopyCart(orderId, firstId + 1, items[1..]);
      var lines := OrderLinesFor(orderId, firstId, items);
      forall i | 1 <= i < |items| ensures lines[i] == OrderLinesFor(orderId, firstId + 1, items[1..])[i - 1] {
      }
    }
  }

  /** Sum of captured price times quantity over an order's lines. */
  function OrderLinesTotal(lines: seq<OrderItem>): real
  {
    if lines == [] then 0.0 else lines[0].price * (lines[0].quantity as real) + OrderLinesTotal(lines[1..])
  }

  lemma {:induction false} OrderLinesTotalIsLinesSum(orderId: Id, firstId: Id, items: seq<CartItem>)
    ensures OrderLinesTotal(OrderLinesFor(orderId, firstId, items)) == LinesSum(items)
    decreases |items|
  {
    if items != [] {
      var lines := OrderLinesFor(orderId, firstId, items);
      assert lines[1..] == OrderLinesFor(orderId, firstId + 1, items[1..]);
      assert lines[0] == OrderLineFor(firstId, orderId, items[0]);
      OrderLinesTotalIsLinesSum(orderId, firstId + 1, items[1..]);
    }
  }

  /** The order total recorded at checkout equals the sum of its lines' captured price times quantity. */
  lemma OrderLinesTotalIsCartTotal(orderId: Id, firstId: Id, items: seq<CartItem>)
    ensures OrderLinesTotal(OrderLinesFor(orderId, firstId, items)) == CartTotal(items)
  {
    OrderLinesTotalIsLinesSum(orderId, firstId, items);
    CartTotalIsLinesSum(items);
  }
}
