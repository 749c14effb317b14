/**
 * The records the screens hand to one another through navigation.
 * Prices are whole cents: one numeric reading of the price text stored with a
 * product, `None` when the field is absent or is not a number. The same reading
 * stands for the cart's number coercion and the checkout's `parseFloat`.
 */
module Catalog {
  import opened Wrappers

  /** A Firestore document id. */
  type Id = string

  /** A document of the `products` collection as the screens receive it (`{id, ...doc.data()}`). */
  datatype Product = Product(
    id: Id,
    productName: Option<string>,
    description: Option<string>,
    price: Option<int>,
    imageUrl: Option<string>)

  /**
   * One entry of the `data` list the address screen receives: a cart line
   * without its id, or a whole product passed by "Buy Now", which has no
   * quantity field.
   */
  datatype OrderItem = OrderItem(
    productName: Option<string>,
    price: Option<int>,
    quantity: Option<int>,
    imageUrl: Option<string>)

  /** "Buy Now" passes the product itself as the only item; its `quantity` is undefined. */
  function BuyNowItem(p: Product): OrderItem {
    OrderItem(p.productName, p.price, None, p.imageUrl)
  }
}
