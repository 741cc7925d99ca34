/**
 * The shopping cart's order summary: the subtotal over the items, a fixed
 * delivery charge and the total.
 */
module ConsumerCart {
  datatype CartItem = CartItem(id: int, name: string, farm: string, price: int, qty: int, unit: string)

  const SampleCart: seq<CartItem> := [
    CartItem(1, "Organic Tomatoes", "Green Valley Farm", 45, 3, "kg"),
    CartItem(2, "Basmati Rice", "Golden Fields", 85, 5, "kg"),
    CartItem(3, "Fresh Spinach", "Green Valley Farm", 30, 2, "bunch")
  ]

  const Delivery: int := 40

  /** `items.reduce((sum, item) => sum + item.price * item.qty, 0)`, folding from the left. */
  function Subtotal(items: seq<CartItem>): int
  {
    if items == [] then 0
    else Subtotal(items[..|items| - 1]) + items[|items| - 1].price * items[|items| - 1].qty
  }

  /** The same sum taken from the front, as an independent reference for `Subtotal`. */
  function SumFromFront(items: seq<CartItem>): int
  {
    if items == [] then 0 else items[0].price * items[0].qty + SumFromFront(items[1..])
  }

  lemma {:induction false} SubtotalIsSum(items: seq<CartItem>)
    ensures Subtotal(items) == SumFromFront(items)
  {
    if |items| > 1 {
      var init := items[..|items| - 1];
      SubtotalIsSum(init);
      SubtotalIsSum(items[1..]);
      assert items[1..][..|items[1..]| - 1] == init[1..];
      SubtotalIsSum(init[1..]);
      assert init[0] == items[0];
    }
  }

  /** Adding an item adds its line amount. */
  lemma SubtotalAppend(items: seq<CartItem>, x: CartItem)
    ensures Subtotal(items + [x]) == Subtotal(items) + x.price * x.qty
  {
    assert (items + [x])[..|items|] == items;
  }

  /** `subtotal + delivery`. */
  function Total(items: seq<CartItem>): int
  {
    Subtotal(items) + Delivery
  }

  /** With no negative prices or quantities the subtotal is not negative, and the total is at least the delivery charge. */
  lemma {:induction false} TotalAtLeastDelivery(items: seq<CartItem>)
    requires forall i :: 0 <= i < |items| ==> items[i].price >= 0 && items[i].qty >= 0
    ensures Subtotal(items) >= 0
    ensures Total(items) >= 40
  {
    if items != [] {
      TotalAtLeastDelivery(items[..|items| - 1]);
      var last := items[|items| - 1];
      assert last.price * last.qty >= 0;
    }
  }

  /** The sample cart: 135 + 425 + 60. */
  lemma SampleSummary()
    ensures Subtotal(SampleCart) == 620
    ensures Total(SampleCart) == 660
    ensures |SampleCart| == 3
  {
    SubtotalIsSum(SampleCart);
    assert SampleCart[1..][1..][1..] == [];
  }
}
