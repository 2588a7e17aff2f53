/**
 * The records of the storefront's five tables, with the fields the handlers
 * read or write. Identifiers are opaque in the store; here they are naturals.
 * Timestamps are not fields: where the store orders rows by creation time,
 * the model keeps the table in that order instead.
 */
module Entities {
  import opened Optional

  type Id = nat

  datatype Product = Product(
    id: Id,
    name: string,
    description: string,
    price: real,
    discountPrice: Option<real>,   // null in the store when there is no discount
    imageUrl: string,
    category: string,
    sizes: seq<string>,
    colors: seq<string>,
    stock: int)

  datatype User = User(id: Id, email: string, fullName: string, isAdmin: bool)

  /** A row of the cart_items table. */
  datatype CartRow = CartRow(
    id: Id,
    userId: Id,
    productId: Id,
    quantity: int,
    size: string,
    color: string)

  /** A cart line as the storefront loads it: the row with its product embedded (absent when the join finds none). */
  datatype CartItem = CartItem(row: CartRow, product: Option<Product>)

  datatype Status = Pending | Paid | Shipped | Delivered | Cancelled

  datatype Order = Order(id: Id, userId: Id, total: real, status: Status, paymentUrl: Option<string>)

  /** A row of the order_items table; `price` is the unit price captured at checkout. */
  datatype OrderItem = OrderItem(
    id: Id,
    orderId: Id,
    productId: Id,
    quantity: int,
    size: string,
    color: string,
    price: real)

  /** The fields of the admin's new-product form. */
  datatype ProductDraft = ProductDraft(
    name: string,
    description: string,
    price: real,
    discountPrice: real,
    imageUrl: string,
    category: string,
    sizes: seq<string>,
    colors: seq<string>,
    stock: int)
}
