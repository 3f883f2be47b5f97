/** The storefront cart: a list of lines merged by product and size. Each
    operation builds a new list that replaces the old one. */
module Cart {
  import opened Common

  /** The object handed to `addToCart`. Ids are numbers or absent (`None`);
      an absent size is the empty string. The image is left out. */
  datatype Addition = Addition(productId: Option<int>, id: Option<int>, name: string, price: int,
                               size: string, toppings: seq<string>)

  /** A cart line: the addition's fields, the merge key as `id`, the chosen
      product id and the quantity. */
  datatype CartLine = CartLine(id: string, productId: Option<int>, name: string, price: int,
                               size: string, toppings: seq<string>, quantity: int)

  /** A numeric id is falsy when absent or 0. */
  predicate Truthy(n: Option<int>) {
    n.Some? && n.value != 0
  }

  /** `a || b` on ids. */
  function Either(a: Option<int>, b: Option<int>): Option<int> {
    if Truthy(a) then a else b
  }

  /** An id as a template string renders it. */
  function IdText(n: Option<int>): string {
    match n
    case Some(v) => IntToString(v)
    case None => "undefined"
  }

  function SizeText(size: string): string {
    if size != "" then size else "default"
  }

  /** The key of an addition: `${productId || id}-${size || 'default'}`. */
  function AdditionKey(a: Addition): string {
    IdText(Either(a.productId, a.id)) + "-" + SizeText(a.size)
  }

  /** The key recomputed from a line: the stored product id, or the line's
      own `id` text when that product id is falsy. */
  function LineKey(l: CartLine): string {
    (if Truthy(l.productId) then IntToString(l.productId.value) else l.id) + "-" + SizeText(l.size)
  }

  /** Some line's recomputed key equals `key` (`prev.find(...)`). */
  predicate HasKey(cart: seq<CartLine>, key: string) {
    exists i | 0 <= i < |cart| :: LineKey(cart[i]) == key
  }

  /** `prev.map(...)`: every line whose key matches gains one unit. */
  function Bump(cart: seq<CartLine>, key: string): (r: seq<CartLine>)
    ensures |r| == |cart|
    ensures forall i :: 0 <= i < |cart| ==>
      r[i] == if LineKey(cart[i]) == key then cart[i].(quantity := cart[i].quantity + 1) else cart[i]
  {
    if cart == [] then []
    else
      [if LineKey(cart[0]) == key then cart[0].(quantity := cart[0].quantity + 1) else cart[0]]
      + Bump(cart[1..], key)
  }

  /** The line a new addition becomes. */
  function NewLine(a: Addition): CartLine {
    CartLine(AdditionKey(a), Either(a.productId, a.id), a.name, a.price, a.size, a.toppings, 1)
  }

  /** `addToCart` */
  function AddToCart(cart: seq<CartLine>, a: Addition): seq<CartLine> {
    var key := AdditionKey(a);
    if HasKey(cart, key) then Bump(cart, key) else cart + [NewLine(a)]
  }

  /** `removeFromCart`: `filter(i => i.id !== itemId)`. */
  function RemoveFromCart(cart: seq<CartLine>, itemId: string): (r: seq<CartLine>)
    ensures |r| <= |cart|
    ensures forall l :: l in r <==> l in cart && l.id != itemId
  {
    if cart == [] then []
    else (if cart[0].id != itemId then [cart[0]] else []) + RemoveFromCart(cart[1..], itemId)
  }

  /** `prev.map(i => i.id === itemId ? { ...i, quantity } : i)` */
  function SetQuantity(cart: seq<CartLine>, itemId: string, quantity: int): (r: seq<CartLine>)
    ensures |r| == |cart|
    ensures forall i :: 0 <= i < |cart| ==>
      r[i] == if cart[i].id == itemId then cart[i].(quantity := quantity) else cart[i]
  {
    if cart == [] then []
    else [if cart[0].id == itemId then cart[0].(quantity := quantity) else cart[0]]
         + SetQuantity(cart[1..], itemId, quantity)
  }

  /** `updateQuantity`: a quantity of 0 or less removes the line. */
  function UpdateQuantity(cart: seq<CartLine>, itemId: string, quantity: int): seq<CartLine> {
    if quantity <= 0 then RemoveFromCart(cart, itemId) else SetQuantity(cart, itemId, quantity)
  }

  /** `clearCart` */
  function ClearCart(): (r: seq<CartLine>)
    ensures |r| == 0 && Total(r) == 0 && ItemCount(r) == 0
  {
    []
  }

  /** `total`: the sum of price × quantity. */
  function Total(cart: seq<CartLine>): int {
    if cart == [] then 0 else cart[0].price * cart[0].quantity + Total(cart[1..])
  }

  /** `getItemCount`: the sum of quantities. */
  function ItemCount(cart: seq<CartLine>): int {
    if cart == [] then 0 else cart[0].quantity + ItemCount(cart[1..])
  }

  // ---------------------------------------------------------------------
  // Properties
  // ---------------------------------------------------------------------

  /** A cart as the storefront builds it: every line's product id is truthy,
      its key recomputes to its own id, and no two lines share an id. */
  predicate WellFormed(cart: seq<CartLine>) {
    && (forall i | 0 <= i < |cart| :: Truthy(cart[i].productId) && LineKey(cart[i]) == cart[i].id)
    && (forall i, j | 0 <= i < j < |cart| :: cart[i].id != cart[j].id)
  }

  /** An addition already in the cart raises that line's quantity by one and
      leaves every other line as it was. */
  lemma AddExisting(cart: seq<CartLine>, a: Addition, k: int)
    requires WellFormed(cart) && 0 <= k < |cart| && cart[k].id == AdditionKey(a)
    ensures var r := AddToCart(cart, a);
      && |r| == |cart|
      && r[k] == cart[k].(quantity := cart[k].quantity + 1)
      && forall i :: 0 <= i < |cart| && i != k ==> r[i] == cart[i]
  {
    assert LineKey(cart[k]) == AdditionKey(a);
  }

  /** A new key appends one line, keyed by the addition's key, with the
      product id it chose and quantity 1. */
  lemma AddNew(cart: seq<CartLine>, a: Addition)
    requires !HasKey(cart, AdditionKey(a))
    ensures var r := AddToCart(cart, a);
      && r[..|cart|] == cart
      && |r| == |cart| + 1
      && r[|cart|].id == AdditionKey(a) && r[|cart|].quantity == 1
      && r[|cart|].productId == Either(a.productId, a.id)
  {
  }

  /** With a truthy product id, the new line's key recomputes to its id. */
  lemma NewLineKey(a: Addition)
    requires Truthy(Either(a.productId, a.id))
    ensures LineKey(NewLine(a)) == NewLine(a).id
  {
  }

  /** Without a truthy product id the recomputed key of the new line is
      longer than its id, so the same addition made twice never merges: it
      leaves two lines with one id. */
  lemma FalsyIdNeverMerges(a: Addition)
    requires !Truthy(Either(a.productId, a.id))
    ensures var r := AddToCart(AddToCart([], a), a);
      |r| == 2 && r[0].id == r[1].id && r[0].quantity == 1 && r[1].quantity == 1
  {
    var first := AddToCart([], a);
    assert first == [NewLine(a)];
    assert |LineKey(NewLine(a))| > |AdditionKey(a)|;
    assert !HasKey(first, AdditionKey(a));
  }

  /** The key depends on the id, the product id and the size only. */
  lemma SameKey(l: CartLine, m: CartLine)
    requires l.id == m.id && l.productId == m.productId && l.size == m.size
    ensures LineKey(l) == LineKey(m)
  {
  }

  /** Adding with a truthy product id keeps the cart well formed: the keys
      stay unique. */
  lemma AddKeepsWellFormed(cart: seq<CartLine>, a: Addition)
    requires WellFormed(cart) && Truthy(Either(a.productId, a.id))
    ensures WellFormed(AddToCart(cart, a))
  {
    var key := AdditionKey(a);
    if !HasKey(cart, key) {
      AppendKeepsWellFormed(cart, a);
    } else {
      BumpKeepsWellFormed(cart, key);
    }
  }

  lemma AppendKeepsWellFormed(cart: seq<CartLine>, a: Addition)
    requires WellFormed(cart) && Truthy(Either(a.productId, a.id))
    requires !HasKey(cart, AdditionKey(a))
    ensures WellFormed(cart + [NewLine(a)])
  {
    NewLineKey(a);
    var r := cart + [NewLine(a)];
    forall i, j | 0 <= i < j < |r|
      ensures r[i].id != r[j].id
    {
      if j == |cart| {
        assert LineKey(cart[i]) == cart[i].id;
      }
    }
  }

  lemma BumpKeepsWellFormed(cart: seq<CartLine>, key: string)
    requires WellFormed(cart)
    ensures WellFormed(Bump(cart, key))
  {
    var r := Bump(cart, key);
    forall i | 0 <= i < |r|
      ensures Truthy(r[i].productId) && LineKey(r[i]) == r[i].id
    {
      assert r[i].id == cart[i].id && r[i].productId == cart[i].productId && r[i].size == cart[i].size;
      SameKey(r[i], cart[i]);
    }
  }

  /** The key leaves toppings and price out: from a cart without the key,
      two additions that differ only there make one line with quantity 2
      that keeps the first addition's price and toppings. */
  lemma ToppingsDoNotSplitLines(cart: seq<CartLine>, a: Addition, b: Addition)
    requires WellFormed(cart) && Truthy(Either(a.productId, a.id))
    requires b.productId == a.productId && b.id == a.id && b.size == a.size
    requires !HasKey(cart, AdditionKey(a))
    ensures AddToCart(AddToCart(cart, a), b) == cart + [NewLine(a).(quantity := 2)]
  {
    NewLineKey(a);
    var r := cart + [NewLine(a)];
    assert LineKey(r[|cart|]) == AdditionKey(b);
    var s := Bump(r, AdditionKey(b));
    forall i | 0 <= i < |cart|
      ensures s[i] == cart[i]
    {
      assert LineKey(r[i]) != AdditionKey(b);
    }
  }

  /** Removal drops the lines with that id and keeps the order of the rest:
      it distributes over concatenation. */
  lemma {:induction false} RemoveAppend(a: seq<CartLine>, b: seq<CartLine>, itemId: string)
    ensures RemoveFromCart(a + b, itemId) == RemoveFromCart(a, itemId) + RemoveFromCart(b, itemId)
  {
    if a == [] {
      assert a + b == b;
    } else {
      assert (a + b)[1..] == a[1..] + b;
      RemoveAppend(a[1..], b, itemId);
    }
  }

  /** A quantity of 0 or less removes the line; a positive one changes only
      that line's quantity. */
  lemma UpdateQuantityCases(cart: seq<CartLine>, itemId: string, quantity: int)
    ensures quantity <= 0 ==> forall l :: l in UpdateQuantity(cart, itemId, quantity) <==> l in cart && l.id != itemId
    ensures quantity > 0 ==>
      var r := UpdateQuantity(cart, itemId, quantity);
      && |r| == |cart|
      && forall i :: 0 <= i < |cart| ==>
           (cart[i].id == itemId ==> r[i].quantity == quantity && r[i].(quantity := cart[i].quantity) == cart[i])
           && (cart[i].id != itemId ==> r[i] == cart[i])
  {
  }

  /** Totals add up over concatenation. */
  lemma {:induction false} TotalAppend(a: seq<CartLine>, b: seq<CartLine>)
    ensures Total(a + b) == Total(a) + Total(b)
    ensures ItemCount(a + b) == ItemCount(a) + ItemCount(b)
  {
    if a == [] {
      assert a + b == b;
    } else {
      assert (a + b)[1..] == a[1..] + b;
      TotalAppend(a[1..], b);
    }
  }

  lemma MulSucc(p: int, q: int)
    ensures p * (q + 1) == p * q + p
  {
  }

  /** Raising the one line whose key matches adds its price to the total
      and one to the count. */
  lemma {:induction false} BumpTotals(cart: seq<CartLine>, key: string, k: int)
    requires 0 <= k < |cart| && LineKey(cart[k]) == key
    requires forall i :: 0 <= i < |cart| && i != k ==> LineKey(cart[i]) != key
    ensures Total(Bump(cart, key)) == Total(cart) + cart[k].price
    ensures ItemCount(Bump(cart, key)) == ItemCount(cart) + 1
  {
    var r := Bump(cart, key);
    var rest := Bump(cart[1..], key);
    assert r[1..] == rest;
    if k == 0 {
      assert rest == cart[1..];
      MulSucc(cart[0].price, cart[0].quantity);
    } else {
      assert r[0] == cart[0];
      BumpTotals(cart[1..], key, k - 1);
    }
  }

  /** In a well-formed cart a key names at most one line. */
  lemma KeyNamesOneLine(cart: seq<CartLine>, k: int)
    requires WellFormed(cart) && 0 <= k < |cart|
    ensures forall i :: 0 <= i < |cart| && i != k ==> LineKey(cart[i]) != LineKey(cart[k])
  {
  }

  /** Every addition to a well-formed cart adds one to the item count; the
      total grows by the price of the line that was raised, or by the
      addition's price for a new line. */
  lemma AddTotals(cart: seq<CartLine>, a: Addition)
    requires WellFormed(cart)
    ensures ItemCount(AddToCart(cart, a)) == ItemCount(cart) + 1
    ensures !HasKey(cart, AdditionKey(a)) ==> Total(AddToCart(cart, a)) == Total(cart) + a.price
    ensures forall k | 0 <= k < |cart| && cart[k].id == AdditionKey(a) ::
      Total(AddToCart(cart, a)) == Total(cart) + cart[k].price
  {
    var key := AdditionKey(a);
    if HasKey(cart, key) {
      var k :| 0 <= k < |cart| && LineKey(cart[k]) == key;
      KeyNamesOneLine(cart, k);
      BumpTotals(cart, key, k);
      assert forall j | 0 <= j < |cart| && cart[j].id == key :: j == k;
    } else {
      TotalAppend(cart, [NewLine(a)]);
      assert [NewLine(a)][1..] == [];
    }
  }
}
