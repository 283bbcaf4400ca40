/**
 The cart store of the storefront page: a mapping from product id to a line
 item, and the three operations that change it. Each operation is a pure
 function from the old cart to the new one; the rendering, storage write and
 confirmation toast that follow each change in the page are not modelled.
 */
module CartStore {

  /** One product's entry in the cart. Prices and quantities are integers. */
  datatype LineItem = LineItem(name: string, price: int, quantity: int)

  /** The cart: product id to line item. Key order carries no meaning. */
  type Cart = map<string, LineItem>

  /** The invariant the operations keep: every entry holds at least one unit. */
  ghost predicate Valid(cart: Cart)
  {
    forall id :: id in cart ==> cart[id].quantity >= 1
  }

  /** The cart the page starts with when nothing has been restored. */
  function EmptyCart(): (r: Cart)
    ensures |r| == 0
    ensures Valid(r)
  {
    map[]
  }

  /**
   Add one unit of a product. A product already in the cart gets one more
   unit and keeps its stored name and price, whatever is passed in; a new
   product is inserted with a single unit.
   */
  function AddToCart(cart: Cart, id: string, name: string, price: int): (r: Cart)
    ensures r.Keys == cart.Keys + {id}
    ensures id in cart ==>
      && r[id].name == cart[id].name
      && r[id].price == cart[id].price
      && r[id].quantity == cart[id].quantity + 1
    ensures id !in cart ==> r[id] == LineItem(name, price, 1)
    ensures forall other :: other in cart && other != id ==> r[other] == cart[other]
    ensures Valid(cart) ==> Valid(r)
  {
    if id in cart then
      var item := cart[id];
      cart[id := item.(quantity := item.quantity + 1)]
    else
      cart[id := LineItem(name, price, 1)]
  }

  /** Delete a product's entry; a product not in the cart changes nothing. */
  function RemoveFromCart(cart: Cart, id: string): (r: Cart)
    ensures r.Keys == cart.Keys - {id}
    ensures forall other :: other in r ==> r[other] == cart[other]
    ensures id !in cart ==> r == cart
    ensures id in cart ==> |r| == |cart| - 1
    ensures Valid(cart) ==> Valid(r)
  {
    if id in cart then
      var r := cart - {id};
      assert r.Keys == cart.Keys - {id};
      r
    else
      cart
  }

  /**
   Set a product's quantity. A product not in the cart is ignored; a
   quantity of zero or less removes the entry; any positive quantity is
   stored as given, with no upper bound.
   */
  function UpdateQuantity(cart: Cart, id: string, newQuantity: int): (r: Cart)
    ensures id !in cart ==> r == cart
    ensures id in cart && newQuantity <= 0 ==> r.Keys == cart.Keys - {id}
    ensures id in cart && newQuantity > 0 ==>
      && r.Keys == cart.Keys
      && r[id] == LineItem(cart[id].name, cart[id].price, newQuantity)
    ensures forall other :: other in cart && other != id ==> other in r && r[other] == cart[other]
    ensures Valid(cart) ==> Valid(r)
  {
    if id in cart then
      if newQuantity <= 0 then
        RemoveFromCart(cart, id)
      else
        cart[id := cart[id].(quantity := newQuantity)]
    else
      cart
  }

  /** Removing a product, present or not, leaves the cart without that key. */
  lemma RemoveIsDrop(cart: Cart, id: string)
    ensures RemoveFromCart(cart, id) == cart - {id}
  {
  }

  /** Setting a quantity of zero or less is the same as removing the product. */
  lemma UpdateToNonPositiveIsRemove(cart: Cart, id: string, newQuantity: int)
    requires newQuantity <= 0
    ensures UpdateQuantity(cart, id, newQuantity) == RemoveFromCart(cart, id)
  {
  }

  /**
   Removing a product erases everything that adding it did: whatever was
   added or updated for that id, the cart after the removal is the cart
   before, minus that id.
   */
  lemma RemoveForgetsAdd(cart: Cart, id: string, name: string, price: int)
    ensures RemoveFromCart(AddToCart(cart, id, name, price), id) == RemoveFromCart(cart, id)
  {
  }

  lemma RemoveForgetsUpdate(cart: Cart, id: string, newQuantity: int)
    ensures RemoveFromCart(UpdateQuantity(cart, id, newQuantity), id) == RemoveFromCart(cart, id)
  {
  }

  /**
   An operation on one product commutes with dropping another product's
   entry: no operation looks at any entry but its own.
   */
  lemma AddCommutesWithDrop(cart: Cart, id: string, name: string, price: int, dropped: string)
    requires id != dropped
    ensures AddToCart(cart - {dropped}, id, name, price) == AddToCart(cart, id, name, price) - {dropped}
  {
  }

  lemma RemoveCommutesWithDrop(cart: Cart, id: string, dropped: string)
    ensures RemoveFromCart(cart - {dropped}, id) == RemoveFromCart(cart, id) - {dropped}
  {
  }

  lemma UpdateCommutesWithDrop(cart: Cart, id: string, newQuantity: int, dropped: string)
    requires id != dropped
    ensures UpdateQuantity(cart - {dropped}, id, newQuantity) == UpdateQuantity(cart, id, newQuantity) - {dropped}
  {
  }

  /** After a removal the next add of that id starts afresh with one unit. */
  lemma AddAfterRemoveIsFresh(cart: Cart, id: string, name: string, price: int)
    ensures AddToCart(RemoveFromCart(cart, id), id, name, price)[id] == LineItem(name, price, 1)
  {
  }

  /** Removing twice is removing once; setting a quantity twice is setting it once. */
  lemma RemoveIdempotent(cart: Cart, id: string)
    ensures RemoveFromCart(RemoveFromCart(cart, id), id) == RemoveFromCart(cart, id)
  {
  }

  lemma UpdateIdempotent(cart: Cart, id: string, newQuantity: int)
    ensures UpdateQuantity(UpdateQuantity(cart, id, newQuantity), id, newQuantity)
         == UpdateQuantity(cart, id, newQuantity)
  {
  }
}
