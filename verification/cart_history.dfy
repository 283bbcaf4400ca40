/**
 Sequences of cart operations as the page's buttons issue them, and what
 holds of every cart built that way: the quantity invariant, the effect of
 repeated adds, and the independence of entries with different ids.
 */
module CartHistory {
  import opened CartStore
  import opened CartTotals

  /** One call into the cart store. */
  datatype Op =
    | Add(id: string, name: string, price: int)
    | Remove(id: string)
    | SetQuantity(id: string, quantity: int)

  /** The cart after one operation. Only the entry under op.id can change. */
  function Apply(cart: Cart, op: Op): (r: Cart)
    ensures Valid(cart) ==> Valid(r)
    ensures forall other :: other != op.id ==> (other in r <==> other in cart)
    ensures forall other :: other != op.id && other in cart ==> r[other] == cart[other]
  {
    match op
    case Add(id, name, price) => AddToCart(cart, id, name, price)
    case Remove(id) => RemoveFromCart(cart, id)
    case SetQuantity(id, quantity) => UpdateQuantity(cart, id, quantity)
  }

  /** The cart after a sequence of operations, applied first to last. */
  function Run(cart: Cart, ops: seq<Op>): (r: Cart)
    ensures Valid(cart) ==> Valid(r)
    decreases |ops|
  {
    if |ops| == 0 then cart else Run(Apply(cart, ops[0]), ops[1..])
  }

  /** Every cart the operations build from the empty cart keeps quantity >= 1. */
  lemma BuiltCartsAreValid(ops: seq<Op>)
    ensures Valid(Run(EmptyCart(), ops))
  {
  }

  /** No operation in ops names id. */
  predicate LeavesAlone(ops: seq<Op>, id: string)
  {
    forall i :: 0 <= i < |ops| ==> ops[i].id != id
  }

  /** Operations on other ids leave an entry exactly as it was, present or absent. */
  lemma {:induction false} OtherIdsUnchanged(cart: Cart, ops: seq<Op>, id: string)
    requires LeavesAlone(ops, id)
    ensures id in Run(cart, ops) <==> id in cart
    ensures id in cart ==> Run(cart, ops)[id] == cart[id]
    decreases |ops|
  {
    if |ops| > 0 {
      assert LeavesAlone(ops[1..], id) by {
        forall i | 0 <= i < |ops[1..]|
          ensures ops[1..][i].id != id
        {
          assert ops[1..][i] == ops[i + 1];
        }
      }
      OtherIdsUnchanged(Apply(cart, ops[0]), ops[1..], id);
    }
  }

  /**
   One operation on two carts that agree away from id leaves them agreeing
   away from id: no operation reads one product's entry to change another's.
   */
  lemma ApplyAgreesAwayFrom(c1: Cart, c2: Cart, op: Op, id: string)
    requires c1 - {id} == c2 - {id}
    ensures Apply(c1, op) - {id} == Apply(c2, op) - {id}
  {
    if op.id == id {
      ApplyAwayFromOwnId(c1, op);
      ApplyAwayFromOwnId(c2, op);
    } else {
      ApplyCommutesWithDrop(c1, op, id);
      ApplyCommutesWithDrop(c2, op, id);
    }
  }

  /** An operation changes nothing outside its own id. */
  lemma ApplyAwayFromOwnId(cart: Cart, op: Op)
    ensures Apply(cart, op) - {op.id} == cart - {op.id}
  {
  }

  /** An operation on another product commutes with dropping id's entry. */
  lemma ApplyCommutesWithDrop(cart: Cart, op: Op, id: string)
    requires op.id != id
    ensures Apply(cart - {id}, op) == Apply(cart, op) - {id}
  {
    match op
    case Add(k, name, price) => AddCommutesWithDrop(cart, k, name, price, id);
    case Remove(k) => RemoveCommutesWithDrop(cart, k, id);
    case SetQuantity(k, quantity) => UpdateCommutesWithDrop(cart, k, quantity, id);
  }

  /** The same holds for any sequence of operations. */
  lemma {:induction false} RunAgreesAwayFrom(c1: Cart, c2: Cart, ops: seq<Op>, id: string)
    requires c1 - {id} == c2 - {id}
    ensures Run(c1, ops) - {id} == Run(c2, ops) - {id}
    decreases |ops|
  {
    if |ops| > 0 {
      ApplyAgreesAwayFrom(c1, c2, ops[0], id);
      RunAgreesAwayFrom(Apply(c1, ops[0]), Apply(c2, ops[0]), ops[1..], id);
    }
  }

  /**
   Away from a product's id, the cart that any further operations build does
   not depend on whether that product had an entry at the start.
   */
  lemma RemovedProductLeavesNoTrace(cart: Cart, ops: seq<Op>, id: string)
    ensures Run(cart, ops) - {id} == Run(RemoveFromCart(cart, id), ops) - {id}
  {
    assert cart - {id} == RemoveFromCart(cart, id) - {id};
    RunAgreesAwayFrom(cart, RemoveFromCart(cart, id), ops, id);
  }

  /** The history with every operation that names id taken out. */
  function Without(ops: seq<Op>, id: string): (r: seq<Op>)
    ensures LeavesAlone(r, id)
    ensures |r| <= |ops|
    ensures forall i :: 0 <= i < |r| ==> r[i] in ops
    ensures forall i :: 0 <= i < |ops| && ops[i].id != id ==> ops[i] in r
    decreases |ops|
  {
    if |ops| == 0 then []
    else if ops[0].id == id then Without(ops[1..], id)
    else [ops[0]] + Without(ops[1..], id)
  }

  /**
   Away from id, a history builds the same cart as the same history with
   id's entry dropped at the start and every operation naming id taken out.
   */
  lemma {:induction false} RunAwayFromId(cart: Cart, ops: seq<Op>, id: string)
    ensures Run(cart, ops) - {id} == Run(cart - {id}, Without(ops, id)) - {id}
    decreases |ops|
  {
    if |ops| > 0 {
      var op := ops[0];
      RunAwayFromId(Apply(cart, op), ops[1..], id);
      if op.id == id {
        ApplyAwayFromOwnId(cart, op);
      } else {
        ApplyCommutesWithDrop(cart, op, id);
        assert ([op] + Without(ops[1..], id))[1..] == Without(ops[1..], id);
      }
    }
  }

  /** Running a + b is running a, then b. */
  lemma {:induction false} RunAppend(cart: Cart, a: seq<Op>, b: seq<Op>)
    ensures Run(cart, a + b) == Run(Run(cart, a), b)
    decreases |a|
  {
    if |a| > 0 {
      assert (a + b)[1..] == a[1..] + b;
      RunAppend(Apply(cart, a[0]), a[1..], b);
    } else {
      assert a + b == b;
    }
  }

  /**
   Once a product is removed, the cart is exactly what the history would have
   built had the product never been in the cart: start without its entry and
   leave out every add, update and removal of it.
   */
  lemma RemoveIsAsIfNeverAdded(cart: Cart, ops: seq<Op>, id: string)
    ensures Run(cart, ops + [Remove(id)]) == Run(cart - {id}, Without(ops, id))
  {
    var built := Run(cart, ops);
    var rebuilt := Run(cart - {id}, Without(ops, id));
    RunAppend(cart, ops, [Remove(id)]);
    assert Run(built, [Remove(id)]) == RemoveFromCart(built, id);
    RemoveIsDrop(built, id);
    RunAwayFromId(cart, ops, id);
    OtherIdsUnchanged(cart - {id}, Without(ops, id), id);
    assert rebuilt - {id} == rebuilt;
  }

  /** Every operation in ops adds one unit of id. */
  predicate AllAddsOf(ops: seq<Op>, id: string)
  {
    forall i :: 0 <= i < |ops| ==> ops[i].Add? && ops[i].id == id
  }

  /**
   Repeated adds of a product already in the cart raise its quantity by the
   number of adds and keep its stored name and price.
   */
  lemma {:induction false} RepeatedAddsAccumulate(cart: Cart, ops: seq<Op>, id: string)
    requires AllAddsOf(ops, id)
    requires id in cart
    ensures id in Run(cart, ops)
    ensures Run(cart, ops)[id] == cart[id].(quantity := cart[id].quantity + |ops|)
    decreases |ops|
  {
    if |ops| > 0 {
      var next := Apply(cart, ops[0]);
      assert AllAddsOf(ops[1..], id) by {
        forall i | 0 <= i < |ops[1..]|
          ensures ops[1..][i].Add? && ops[1..][i].id == id
        {
          assert ops[1..][i] == ops[i + 1];
        }
      }
      RepeatedAddsAccumulate(next, ops[1..], id);
    }
  }

  /**
   n adds of a product not yet in the cart leave n units of it, under the
   name and price of the first add; the later names and prices are ignored.
   */
  lemma RepeatedAddsFromFresh(cart: Cart, ops: seq<Op>, id: string)
    requires AllAddsOf(ops, id)
    requires |ops| > 0
    requires id !in cart
    ensures id in Run(cart, ops)
    ensures Run(cart, ops)[id] == LineItem(ops[0].name, ops[0].price, |ops|)
  {
    var first := Apply(cart, ops[0]);
    assert first[id] == LineItem(ops[0].name, ops[0].price, 1);
    assert AllAddsOf(ops[1..], id) by {
      forall i | 0 <= i < |ops[1..]|
        ensures ops[1..][i].Add? && ops[1..][i].id == id
      {
        assert ops[1..][i] == ops[i + 1];
      }
    }
    RepeatedAddsAccumulate(first, ops[1..], id);
  }

  /** Any sequence of adds, of any products, raises the item count by its length. */
  lemma {:induction false} AddsRaiseCount(cart: Cart, ops: seq<Op>)
    requires forall i :: 0 <= i < |ops| ==> ops[i].Add?
    ensures ItemCount(Run(cart, ops)) == ItemCount(cart) + |ops|
    decreases |ops|
  {
    if |ops| > 0 {
      var op := ops[0];
      AddRaisesCount(cart, op.id, op.name, op.price);
      assert forall i :: 0 <= i < |ops[1..]| ==> ops[1..][i].Add? by {
        forall i | 0 <= i < |ops[1..]|
          ensures ops[1..][i].Add?
        {
          assert ops[1..][i] == ops[i + 1];
        }
      }
      AddsRaiseCount(Apply(cart, op), ops[1..]);
    }
  }

  /** Both aggregates of a one-entry cart are that entry's shares. */
  lemma SingleLineAggregates(id: string, item: LineItem)
    ensures Total(map[id := item]) == LineTotal(item)
    ensures ItemCount(map[id := item]) == item.quantity
  {
    var cart := map[id := item];
    SumOfRemove(cart, id, LineTotal);
    SumOfRemove(cart, id, LineCount);
    assert cart - {id} == map[];
  }

  /** Adding "Widget" at 10 twice gives one line of two units and a total of 20. */
  lemma ScenarioAddTwice()
    ensures Run(EmptyCart(), [Add("p1", "Widget", 10), Add("p1", "Widget", 10)])
         == map["p1" := LineItem("Widget", 10, 2)]
    ensures Total(Run(EmptyCart(), [Add("p1", "Widget", 10), Add("p1", "Widget", 10)])) == 20
  {
    var ops := [Add("p1", "Widget", 10), Add("p1", "Widget", 10)];
    assert ops[1..] == [Add("p1", "Widget", 10)];
    assert Run(EmptyCart(), ops) == map["p1" := LineItem("Widget", 10, 2)];
    SingleLineAggregates("p1", LineItem("Widget", 10, 2));
  }

  /** Adding at price 10 and then setting the quantity to 5 gives a total of 50. */
  lemma ScenarioSetQuantity()
    ensures Total(Run(EmptyCart(), [Add("p1", "Widget", 10), SetQuantity("p1", 5)])) == 50
  {
    var ops := [Add("p1", "Widget", 10), SetQuantity("p1", 5)];
    assert ops[1..] == [SetQuantity("p1", 5)];
    assert Run(EmptyCart(), ops) == map["p1" := LineItem("Widget", 10, 5)];
    SingleLineAggregates("p1", LineItem("Widget", 10, 5));
  }

  /** Adding and then removing a product leaves a count and a total of 0. */
  lemma ScenarioAddRemove()
    ensures ItemCount(Run(EmptyCart(), [Add("p1", "Widget", 10), Remove("p1")])) == 0
    ensures Total(Run(EmptyCart(), [Add("p1", "Widget", 10), Remove("p1")])) == 0
  {
    var ops := [Add("p1", "Widget", 10), Remove("p1")];
    assert ops[1..] == [Remove("p1")];
    assert Run(EmptyCart(), ops) == map[];
  }
}
