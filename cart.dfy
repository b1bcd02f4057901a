/** The shopping cart kept by the home page: a list of lines, one per food
    item id, each with the price (in cents) captured when it was first added. */
module Cart {
  import Seqs

  datatype CartItem = CartItem(id: string, name: string, price: int, quantity: int)

  predicate HasId(cart: seq<CartItem>, id: string) {
    exists i :: 0 <= i < |cart| && cart[i].id == id
  }

  /** No two lines share an id. */
  ghost predicate UniqueIds(cart: seq<CartItem>) {
    forall i, j :: 0 <= i < j < |cart| ==> cart[i].id != cart[j].id
  }

  /** What every cart the page builds satisfies: unique ids and positive quantities. */
  ghost predicate WellFormed(cart: seq<CartItem>) {
    UniqueIds(cart) && forall i :: 0 <= i < |cart| ==> cart[i].quantity >= 1
  }

  /** `addToCart(id, name, price)`. */
  function AddToCart(cart: seq<CartItem>, id: string, name: string, price: int): (r: seq<CartItem>)
    ensures !HasId(cart, id) ==> r == cart + [CartItem(id, name, price, 1)]
    ensures HasId(cart, id) ==>
      && |r| == |cart|
      && forall i :: 0 <= i < |r| ==>
           && r[i].id == cart[i].id && r[i].name == cart[i].name && r[i].price == cart[i].price
           && r[i].quantity == cart[i].quantity + (if cart[i].id == id then 1 else 0)
  {
    if HasId(cart, id) then
      seq(|cart|, i requires 0 <= i < |cart| =>
        if cart[i].id == id then cart[i].(quantity := cart[i].quantity + 1) else cart[i])
    else
      cart + [CartItem(id, name, price, 1)]
  }

  /** `removeFromCart(id)`. */
  function RemoveFromCart(cart: seq<CartItem>, id: string): (r: seq<CartItem>)
    ensures !HasId(r, id)
    ensures forall x :: x in r <==> x in cart && x.id != id
    ensures forall x :: multiset(r)[x] == if x.id != id then multiset(cart)[x] else 0
  {
    var keep := (item: CartItem) => item.id != id;
    assert forall x :: multiset(Seqs.Filter(cart, keep))[x] == if x.id != id then multiset(cart)[x] else 0 by {
      forall x
        ensures multiset(Seqs.Filter(cart, keep))[x] == if x.id != id then multiset(cart)[x] else 0
      {
        Seqs.FilterMultiset(cart, keep, x);
      }
    }
    Seqs.Filter(cart, keep)
  }

  /** `updateCartQuantity(id, quantity)`. */
  function UpdateCartQuantity(cart: seq<CartItem>, id: string, quantity: int): (r: seq<CartItem>)
    ensures quantity <= 0 ==> r == RemoveFromCart(cart, id)
    ensures quantity > 0 ==>
      && |r| == |cart|
      && forall i :: 0 <= i < |r| ==>
           && r[i].id == cart[i].id && r[i].name == cart[i].name && r[i].price == cart[i].price
           && r[i].quantity == (if cart[i].id == id then quantity else cart[i].quantity)
  {
    if quantity <= 0 then RemoveFromCart(cart, id)
    else
      seq(|cart|, i requires 0 <= i < |cart| =>
        if cart[i].id == id then cart[i].(quantity := quantity) else cart[i])
  }

  /** `cartItemCount`: the sum of the quantities. */
  function CartItemCount(cart: seq<CartItem>): int {
    if cart == [] then 0 else cart[0].quantity + CartItemCount(cart[1..])
  }

  /** What one line adds to the total, in cents. */
  function LineTotal(item: CartItem): int {
    item.price * item.quantity
  }

  /** `cartTotal`, in cents: the sum of price times quantity. */
  function CartTotal(cart: seq<CartItem>): int {
    if cart == [] then 0 else LineTotal(cart[0]) + CartTotal(cart[1..])
  }

  lemma {:induction false} CountConcat(a: seq<CartItem>, b: seq<CartItem>)
    ensures CartItemCount(a + b) == CartItemCount(a) + CartItemCount(b)
    ensures CartTotal(a + b) == CartTotal(a) + CartTotal(b)
  {
    if a == [] {
      assert a + b == b;
    } else {
      assert (a + b)[1..] == a[1..] + b;
      CountConcat(a[1..], b);
    }
  }

  /** The count and total of a cart split around line `k`. */
  lemma CountAround(cart: seq<CartItem>, k: int)
    requires 0 <= k < |cart|
    ensures CartItemCount(cart) == CartItemCount(cart[..k]) + cart[k].quantity + CartItemCount(cart[k + 1..])
    ensures CartTotal(cart) == CartTotal(cart[..k]) + LineTotal(cart[k]) + CartTotal(cart[k + 1..])
  {
    assert cart == cart[..k] + ([cart[k]] + cart[k + 1..]);
    CountConcat(cart[..k], [cart[k]] + cart[k + 1..]);
    CountConcat([cart[k]], cart[k + 1..]);
  }

  /** Carts that agree line by line on price and quantity have the same count and total. */
  lemma {:induction false} CountsAgree(a: seq<CartItem>, b: seq<CartItem>)
    requires |a| == |b|
    requires forall i :: 0 <= i < |a| ==> a[i].price == b[i].price && a[i].quantity == b[i].quantity
    ensures CartItemCount(a) == CartItemCount(b) && CartTotal(a) == CartTotal(b)
  {
    if a != [] {
      CountsAgree(a[1..], b[1..]);
    }
  }

  /** Changing the quantity of line `k` alone changes the count by the same amount. */
  lemma SetLineQuantity(cart: seq<CartItem>, r: seq<CartItem>, k: int)
    requires 0 <= k < |cart| && |r| == |cart|
    requires forall i :: 0 <= i < |r| && i != k ==> r[i].price == cart[i].price && r[i].quantity == cart[i].quantity
    requires r[k].price == cart[k].price
    ensures CartItemCount(r) == CartItemCount(cart) - cart[k].quantity + r[k].quantity
    ensures CartTotal(r) == CartTotal(cart) - LineTotal(cart[k]) + LineTotal(r[k])
  {
    CountAround(cart, k);
    CountAround(r, k);
    CountsAgree(r[..k], cart[..k]);
    CountsAgree(r[k + 1..], cart[k + 1..]);
  }

  lemma CountEmptyCart()
    ensures CartItemCount([]) == 0 && CartTotal([]) == 0
  {
  }

  /** In a well-formed cart every line adds at least one to the count. */
  lemma {:induction false} CountAtLeastLines(cart: seq<CartItem>)
    requires WellFormed(cart)
    ensures CartItemCount(cart) >= |cart|
  {
    if cart != [] {
      CountAtLeastLines(cart[1..]);
    }
  }

  lemma IndexOf(cart: seq<CartItem>, id: string) returns (k: int)
    requires UniqueIds(cart) && HasId(cart, id)
    ensures 0 <= k < |cart| && cart[k].id == id
    ensures forall i :: 0 <= i < |cart| && i != k ==> cart[i].id != id
  {
    k :| 0 <= k < |cart| && cart[k].id == id;
  }

  /** Removing the line with `id` from a cart with unique ids drops exactly that line. */
  lemma RemoveDropsOneLine(cart: seq<CartItem>, id: string, k: int)
    requires UniqueIds(cart) && 0 <= k < |cart| && cart[k].id == id
    ensures RemoveFromCart(cart, id) == cart[..k] + cart[k + 1..]
  {
    var p := (item: CartItem) => item.id != id;
    assert cart == cart[..k] + ([cart[k]] + cart[k + 1..]);
    Seqs.FilterConcat(cart[..k], [cart[k]] + cart[k + 1..], p);
    Seqs.FilterConcat([cart[k]], cart[k + 1..], p);
    Seqs.FilterAllKept(cart[..k], p);
    Seqs.FilterAllKept(cart[k + 1..], p);
  }

  lemma RemoveAbsent(cart: seq<CartItem>, id: string)
    requires !HasId(cart, id)
    ensures RemoveFromCart(cart, id) == cart
  {
    Seqs.FilterAllKept(cart, (item: CartItem) => item.id != id);
  }

  /** `removeFromCart` keeps the other lines in their order and drops the count
      by the removed line's quantity. */
  lemma RemoveFromCartSpec(cart: seq<CartItem>, id: string)
    requires UniqueIds(cart)
    ensures Seqs.IsSubsequence(RemoveFromCart(cart, id), cart)
    ensures HasId(cart, id) ==>
      exists k :: 0 <= k < |cart| && cart[k].id == id
        && RemoveFromCart(cart, id) == cart[..k] + cart[k + 1..]
        && CartItemCount(RemoveFromCart(cart, id)) == CartItemCount(cart) - cart[k].quantity
    ensures !HasId(cart, id) ==> RemoveFromCart(cart, id) == cart
  {
    Seqs.FilterIsSubsequence(cart, (item: CartItem) => item.id != id);
    if HasId(cart, id) {
      var k := IndexOf(cart, id);
      RemoveDropsOneLine(cart, id, k);
      CountAround(cart, k);
      CountConcat(cart[..k], cart[k + 1..]);
    } else {
      RemoveAbsent(cart, id);
    }
  }

  /** One more unit of a line adds its price to the line's total. */
  lemma LineTotalStep(a: CartItem, b: CartItem)
    requires b.price == a.price && b.quantity == a.quantity + 1
    ensures LineTotal(b) == LineTotal(a) + a.price
  {
  }

  /** Adding an item increases the count by one and the total by its captured price. */
  lemma AddToCartCount(cart: seq<CartItem>, id: string, name: string, price: int)
    requires UniqueIds(cart)
    ensures CartItemCount(AddToCart(cart, id, name, price)) == CartItemCount(cart) + 1
    ensures !HasId(cart, id) ==> CartTotal(AddToCart(cart, id, name, price)) == CartTotal(cart) + price
    ensures HasId(cart, id) ==>
      exists k :: 0 <= k < |cart| && cart[k].id == id &&
        CartTotal(AddToCart(cart, id, name, price)) == CartTotal(cart) + cart[k].price
  {
    if HasId(cart, id) {
      var k := IndexOf(cart, id);
      AddExistingCount(cart, id, name, price, k);
    } else {
      CountConcat(cart, [CartItem(id, name, price, 1)]);
    }
  }

  lemma AddExistingCount(cart: seq<CartItem>, id: string, name: string, price: int, k: int)
    requires 0 <= k < |cart| && cart[k].id == id
    requires forall i :: 0 <= i < |cart| && i != k ==> cart[i].id != id
    ensures CartItemCount(AddToCart(cart, id, name, price)) == CartItemCount(cart) + 1
    ensures CartTotal(AddToCart(cart, id, name, price)) == CartTotal(cart) + cart[k].price
  {
    var r := AddToCart(cart, id, name, price);
    assert HasId(cart, id);
    assert r[k].quantity == cart[k].quantity + 1;
    SetLineQuantity(cart, r, k);
    LineTotalStep(cart[k], r[k]);
  }

  /** Setting a positive quantity on a present line changes the count by the difference. */
  lemma UpdateCartQuantityCount(cart: seq<CartItem>, id: string, quantity: int)
    requires UniqueIds(cart) && quantity > 0
    ensures !HasId(cart, id) ==> UpdateCartQuantity(cart, id, quantity) == cart
    ensures HasId(cart, id) ==>
      exists k :: 0 <= k < |cart| && cart[k].id == id &&
        CartItemCount(UpdateCartQuantity(cart, id, quantity)) == CartItemCount(cart) - cart[k].quantity + quantity
  {
    var r := UpdateCartQuantity(cart, id, quantity);
    if HasId(cart, id) {
      var k := IndexOf(cart, id);
      SetLineQuantity(cart, r, k);
    } else {
      assert forall i :: 0 <= i < |r| ==> r[i] == cart[i];
    }
  }

  /** The three updaters keep a cart well-formed; in particular ids stay unique. */
  lemma AddToCartKeepsWellFormed(cart: seq<CartItem>, id: string, name: string, price: int)
    requires WellFormed(cart)
    ensures WellFormed(AddToCart(cart, id, name, price))
  {
    var r := AddToCart(cart, id, name, price);
    if HasId(cart, id) {
      assert forall i :: 0 <= i < |r| ==> r[i].id == cart[i].id && r[i].quantity >= cart[i].quantity;
    } else {
      assert forall i :: 0 <= i < |cart| ==> r[i] == cart[i];
    }
  }

  /** Dropping one line of a well-formed cart leaves it well-formed. */
  lemma DropLineKeepsWellFormed(cart: seq<CartItem>, k: int)
    requires WellFormed(cart) && 0 <= k < |cart|
    ensures WellFormed(cart[..k] + cart[k + 1..])
  {
    var r := cart[..k] + cart[k + 1..];
    forall i | 0 <= i < |r| ensures r[i] == cart[if i < k then i else i + 1] && r[i].quantity >= 1 {
    }
    forall i, j | 0 <= i < j < |r| ensures r[i].id != r[j].id {
      var a := if i < k then i else i + 1;
      var b := if j < k then j else j + 1;
      assert r[i] == cart[a] && r[j] == cart[b] && a < b;
    }
  }

  lemma RemoveFromCartKeepsWellFormed(cart: seq<CartItem>, id: string)
    requires WellFormed(cart)
    ensures WellFormed(RemoveFromCart(cart, id))
  {
    if HasId(cart, id) {
      var k := IndexOf(cart, id);
      RemoveDropsOneLine(cart, id, k);
      DropLineKeepsWellFormed(cart, k);
    } else {
      RemoveAbsent(cart, id);
    }
  }

  lemma UpdateCartQuantityKeepsWellFormed(cart: seq<CartItem>, id: string, quantity: int)
    requires WellFormed(cart)
    ensures WellFormed(UpdateCartQuantity(cart, id, quantity))
  {
    if quantity <= 0 {
      RemoveFromCartKeepsWellFormed(cart, id);
    } else {
      var r := UpdateCartQuantity(cart, id, quantity);
      assert forall i :: 0 <= i < |r| ==> r[i].id == cart[i].id && r[i].quantity >= 1;
    }
  }
}
