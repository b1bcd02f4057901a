/** The cart drawer: its quantity buttons and the order it posts on checkout. */
module CartModal {
  import opened Wrappers
  import opened Schema
  import opened Cart

  /** Every checkout is charged to this room; the page has no guest session. */
  const CheckoutRoomNumber: string := "1205"
  const CheckoutStatus: string := "preparing"

  /** One order line as posted: `{ id, name, price, quantity }`. */
  function LineJson(item: CartItem): Json {
    JObject(map["id" := JString(item.id), "name" := JString(item.name),
                "price" := JNumber(item.price), "quantity" := JNumber(item.quantity)])
  }

  /** `items.map(item => ({ id, name, price, quantity }))`. */
  function ItemsJson(items: seq<CartItem>): (j: Json)
    ensures j.JArray? && |j.elems| == |items|
    ensures forall i :: 0 <= i < |items| ==> j.elems[i] == LineJson(items[i])
  {
    JArray(seq(|items|, i requires 0 <= i < |items| => LineJson(items[i])))
  }

  /** The `orderData` the Checkout button posts to /api/food-orders. */
  function CheckoutOrder(items: seq<CartItem>, total: Cents): (d: InsertFoodOrder)
    ensures d.roomNumber == Some(CheckoutRoomNumber) && d.status == Some(CheckoutStatus)
    ensures d.totalAmount == total
    ensures d.items == ItemsJson(items)
  {
    InsertFoodOrder(Some(CheckoutRoomNumber), ItemsJson(items), total, Some(CheckoutStatus))
  }

  /** The Checkout button is rendered only for a non-empty cart. */
  predicate CheckoutShown(items: seq<CartItem>) {
    |items| > 0
  }

  /** A posted order therefore always carries at least one line, and the page's
      total is the sum of price times quantity over those lines. */
  lemma CheckoutPosts(items: seq<CartItem>)
    requires CheckoutShown(items)
    ensures CheckoutOrder(items, CartTotal(items)).items.JArray?
    ensures |CheckoutOrder(items, CartTotal(items)).items.elems| == |items| > 0
    ensures CheckoutOrder(items, CartTotal(items)).status == Some("preparing")
    ensures CheckoutOrder(items, CartTotal(items)).roomNumber == Some("1205")
  {
  }

  /** The inverse of `LineJson`: an object with a string `id` and `name` and
      numeric `price` and `quantity` reads back as that line; anything else is
      not a line. */
  function DecodeLine(j: Json): Option<CartItem> {
    if j.JObject? && "id" in j.fields && "name" in j.fields && "price" in j.fields && "quantity" in j.fields
       && j.fields["id"].JString? && j.fields["name"].JString?
       && j.fields["price"].JNumber? && j.fields["quantity"].JNumber?
    then Some(CartItem(j.fields["id"].s, j.fields["name"].s, j.fields["price"].n, j.fields["quantity"].n))
    else None
  }

  function DecodeLines(elems: seq<Json>): Option<seq<CartItem>> {
    if elems == [] then Some([])
    else
      match (DecodeLine(elems[0]), DecodeLines(elems[1..]))
      case (Some(x), Some(rest)) => Some([x] + rest)
      case _ => None
  }

  /** `Array.isArray(order.items)` and every element a line. */
  function DecodeItems(j: Json): Option<seq<CartItem>> {
    if j.JArray? then DecodeLines(j.elems) else None
  }

  /** The posted items decode to exactly the cart they were built from. */
  lemma {:induction false} DecodeItemsJson(items: seq<CartItem>)
    ensures DecodeItems(ItemsJson(items)) == Some(items)
  {
    DecodeLinesJson(items);
  }

  lemma {:induction false} DecodeLinesJson(items: seq<CartItem>)
    ensures DecodeLines(ItemsJson(items).elems) == Some(items)
  {
    if items != [] {
      DecodeLinesJson(items[1..]);
      assert ItemsJson(items).elems[1..] == ItemsJson(items[1..]).elems;
      assert DecodeLine(LineJson(items[0])) == Some(items[0]);
      assert items == [items[0]] + items[1..];
    }
  }

  /** The minus button asks for one less, the plus button for one more. */
  function MinusRequest(item: CartItem): int {
    item.quantity - 1
  }

  function PlusRequest(item: CartItem): int {
    item.quantity + 1
  }

  /** Minus on a line at quantity 1 removes that line and only it. */
  lemma MinusAtOneRemoves(cart: seq<CartItem>, k: int)
    requires WellFormed(cart) && 0 <= k < |cart| && cart[k].quantity == 1
    ensures UpdateCartQuantity(cart, cart[k].id, MinusRequest(cart[k])) == cart[..k] + cart[k + 1..]
    ensures !HasId(UpdateCartQuantity(cart, cart[k].id, MinusRequest(cart[k])), cart[k].id)
    ensures CartItemCount(UpdateCartQuantity(cart, cart[k].id, MinusRequest(cart[k]))) == CartItemCount(cart) - 1
  {
    RemoveFromCartSpec(cart, cart[k].id);
    RemoveDropsOneLine(cart, cart[k].id, k);
  }

  /** Minus on a line above 1, and plus on any line, move the item count by one. */
  lemma MinusPlusCount(cart: seq<CartItem>, k: int)
    requires WellFormed(cart) && 0 <= k < |cart|
    ensures cart[k].quantity > 1 ==>
      CartItemCount(UpdateCartQuantity(cart, cart[k].id, MinusRequest(cart[k]))) == CartItemCount(cart) - 1
    ensures CartItemCount(UpdateCartQuantity(cart, cart[k].id, PlusRequest(cart[k]))) == CartItemCount(cart) + 1
  {
    var id := cart[k].id;
    var minus := UpdateCartQuantity(cart, id, MinusRequest(cart[k]));
    var plus := UpdateCartQuantity(cart, id, PlusRequest(cart[k]));
    assert forall i :: 0 <= i < |cart| && i != k ==> cart[i].id != id;
    if cart[k].quantity > 1 {
      SetLineQuantity(cart, minus, k);
    }
    SetLineQuantity(cart, plus, k);
  }
}
