/**
 The two aggregates the page derives from the cart: the money total (the sum
 of price times quantity) and the item count shown on the badge (the sum of
 quantities). The page reduces over the cart's values in whatever order the
 object enumerates them; here the reference sums peel off an arbitrary entry,
 and SumOfRemove shows that every entry can be peeled off first, so for the
 integer sums of this model the order does not matter. (The page adds
 floating-point numbers, whose sum can depend on the order.)
 */
module CartTotals {
  import opened CartStore

  /** The money one line contributes: unit price times quantity. */
  function LineTotal(item: LineItem): int
  {
    item.price * item.quantity
  }

  /** Changing a line's quantity changes its share by the price per unit of change. */
  lemma LineTotalRequantify(item: LineItem, quantity: int)
    ensures LineTotal(item.(quantity := quantity))
         == LineTotal(item) + item.price * (quantity - item.quantity)
  {
  }

  /** One more unit adds one unit price to the line's share. */
  lemma LineTotalOneMore(item: LineItem)
    ensures LineTotal(item.(quantity := item.quantity + 1)) == LineTotal(item) + item.price
  {
  }

  /** The units one line contributes to the badge count. */
  function LineCount(item: LineItem): int
  {
    item.quantity
  }

  /** Taking one entry out of a cart leaves one entry fewer. */
  lemma SizeAfterRemove(cart: Cart, id: string)
    requires id in cart
    ensures |cart - {id}| == |cart| - 1
  {
  }

  /** Some entry of a non-empty cart; which one is left unspecified. */
  ghost function Pick(cart: Cart): (id: string)
    requires |cart| > 0
    ensures id in cart
  {
    var id :| id in cart; id
  }

  /** The sum of f over the entries of the cart, in no particular order. */
  ghost function SumOf(cart: Cart, f: LineItem -> int): int
    decreases |cart|
  {
    if |cart| == 0 then 0
    else
      var id := Pick(cart);
      SizeAfterRemove(cart, id);
      f(cart[id]) + SumOf(cart - {id}, f)
  }

  /** Reference total: sum of price times quantity over all entries. */
  ghost function Total(cart: Cart): int
  {
    SumOf(cart, LineTotal)
  }

  /** Reference item count: sum of quantities over all entries. */
  ghost function ItemCount(cart: Cart): int
  {
    SumOf(cart, LineCount)
  }

  /** Any entry may be taken out of the sum first. */
  lemma {:induction false} SumOfRemove(cart: Cart, id: string, f: LineItem -> int)
    requires id in cart
    ensures SumOf(cart, f) == f(cart[id]) + SumOf(cart - {id}, f)
    decreases |cart|
  {
    var first := Pick(cart);
    if first != id {
      var withoutFirst := cart - {first};
      var withoutId := cart - {id};
      SizeAfterRemove(cart, first);
      SizeAfterRemove(cart, id);
      assert withoutFirst - {id} == withoutId - {first};
      SumOfRemove(withoutFirst, id, f);
      SumOfRemove(withoutId, first, f);
    }
  }

  /** The sum after storing item under id: the other entries plus f(item). */
  lemma SumOfStore(cart: Cart, id: string, item: LineItem, f: LineItem -> int)
    ensures SumOf(cart[id := item], f) == f(item) + SumOf(cart - {id}, f)
  {
    SumOfRemove(cart[id := item], id, f);
    assert cart[id := item] - {id} == cart - {id};
  }

  /**
   Storing item under id changes the sum by f(item), less the share of the
   entry it replaces, if any.
   */
  lemma SumOfStoreDelta(cart: Cart, id: string, item: LineItem, f: LineItem -> int)
    ensures SumOf(cart[id := item], f)
         == SumOf(cart, f) + f(item) - (if id in cart then f(cart[id]) else 0)
  {
    SumOfStore(cart, id, item, f);
    if id in cart {
      SumOfRemove(cart, id, f);
    } else {
      assert cart - {id} == cart;
    }
  }

  /** When no entry contributes a negative amount, neither does the sum. */
  lemma {:induction false} SumOfNonNegative(cart: Cart, f: LineItem -> int)
    requires forall id :: id in cart ==> f(cart[id]) >= 0
    ensures SumOf(cart, f) >= 0
    decreases |cart|
  {
    if |cart| > 0 {
      var id := Pick(cart);
      SumOfNonNegative(cart - {id}, f);
    }
  }

  /** When every entry contributes at least one, the sum is at least the number of entries. */
  lemma {:induction false} SumOfAtLeastSize(cart: Cart, f: LineItem -> int)
    requires forall id :: id in cart ==> f(cart[id]) >= 1
    ensures SumOf(cart, f) >= |cart|
    decreases |cart|
  {
    if |cart| > 0 {
      var id := Pick(cart);
      SizeAfterRemove(cart, id);
      SumOfAtLeastSize(cart - {id}, f);
    }
  }

  /**
   The reduction the page performs: start at 0 and add f of each entry,
   visiting the entries in any order.
   */
  method SumLines(cart: Cart, f: LineItem -> int) returns (sum: int)
    ensures sum == SumOf(cart, f)
  {
    sum := 0;
    var rest := cart;
    while |rest| > 0
      invariant sum + SumOf(rest, f) == SumOf(cart, f)
      decreases |rest|
    {
      var id :| id in rest;
      SumOfRemove(rest, id, f);
      sum := sum + f(rest[id]);
      rest := rest - {id};
    }
  }

  /** The cart total: the sum of price times quantity. */
  method CalculateTotal(cart: Cart) returns (total: int)
    ensures total == Total(cart)
    ensures |cart| == 0 ==> total == 0
  {
    total := SumLines(cart, LineTotal);
  }

  /** The badge count: the sum of quantities. */
  method TotalItems(cart: Cart) returns (count: int)
    ensures count == ItemCount(cart)
    ensures |cart| == 0 ==> count == 0
    ensures Valid(cart) ==> count >= |cart|
  {
    count := SumLines(cart, LineCount);
    if Valid(cart) {
      SumOfAtLeastSize(cart, LineCount);
    }
  }

  /** Both aggregates of the empty cart are 0. */
  lemma EmptyCartAggregates()
    ensures Total(EmptyCart()) == 0
    ensures ItemCount(EmptyCart()) == 0
  {
  }

  /**
   On a cart built by the operations the badge shows 0 exactly when the cart
   holds no entries, so the count and the "empty cart" message agree.
   */
  lemma CountZeroIffEmpty(cart: Cart)
    requires Valid(cart)
    ensures ItemCount(cart) == 0 <==> |cart| == 0
  {
    SumOfAtLeastSize(cart, LineCount);
  }

  /** With non-negative prices, the total of a valid cart is never negative. */
  lemma TotalNonNegative(cart: Cart)
    requires Valid(cart)
    requires forall id :: id in cart ==> cart[id].price >= 0
    ensures Total(cart) >= 0
  {
    SumOfNonNegative(cart, LineTotal);
  }

  /** The price add charges: the stored one if the product is already in the cart. */
  function ChargedPrice(cart: Cart, id: string, price: int): int
  {
    if id in cart then cart[id].price else price
  }

  /** Adding a product raises the total by its stored price, or by the given one if new. */
  lemma AddRaisesTotal(cart: Cart, id: string, name: string, price: int)
    ensures Total(AddToCart(cart, id, name, price)) == Total(cart) + ChargedPrice(cart, id, price)
  {
    var after := AddToCart(cart, id, name, price);
    if id in cart {
      var item := cart[id].(quantity := cart[id].quantity + 1);
      assert after == cart[id := item];
      SumOfStoreDelta(cart, id, item, LineTotal);
      assert SumOf(after, LineTotal) == SumOf(cart, LineTotal) + LineTotal(item) - LineTotal(cart[id]);
      LineTotalOneMore(cart[id]);
    } else {
      var item := LineItem(name, price, 1);
      assert after == cart[id := item];
      SumOfStoreDelta(cart, id, item, LineTotal);
      assert SumOf(after, LineTotal) == SumOf(cart, LineTotal) + LineTotal(item);
    }
  }

  /** Adding a product raises the item count by exactly one. */
  lemma AddRaisesCount(cart: Cart, id: string, name: string, price: int)
    ensures ItemCount(AddToCart(cart, id, name, price)) == ItemCount(cart) + 1
  {
    var item := AddToCart(cart, id, name, price)[id];
    assert AddToCart(cart, id, name, price) == cart[id := item];
    SumOfStoreDelta(cart, id, item, LineCount);
  }

  /** Removing a product lowers the total and count by exactly its line's share. */
  lemma RemoveLowersAggregates(cart: Cart, id: string)
    requires id in cart
    ensures Total(RemoveFromCart(cart, id)) == Total(cart) - LineTotal(cart[id])
    ensures ItemCount(RemoveFromCart(cart, id)) == ItemCount(cart) - cart[id].quantity
  {
    SumOfRemove(cart, id, LineTotal);
    SumOfRemove(cart, id, LineCount);
  }

  /** Setting a positive quantity replaces the line's share of the total and count. */
  lemma UpdateAdjustsAggregates(cart: Cart, id: string, newQuantity: int)
    requires id in cart
    requires newQuantity > 0
    ensures Total(UpdateQuantity(cart, id, newQuantity))
         == Total(cart) + cart[id].price * (newQuantity - cart[id].quantity)
    ensures ItemCount(UpdateQuantity(cart, id, newQuantity))
         == ItemCount(cart) + (newQuantity - cart[id].quantity)
  {
    var before := cart[id];
    var item := before.(quantity := newQuantity);
    assert UpdateQuantity(cart, id, newQuantity) == cart[id := item];
    SumOfStoreDelta(cart, id, item, LineTotal);
    SumOfStoreDelta(cart, id, item, LineCount);
    LineTotalRequantify(before, newQuantity);
  }
}
