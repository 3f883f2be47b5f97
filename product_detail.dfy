/** The storefront's product page: the size chosen on load, the topping
    toggle, the price it shows, and the cart addition it makes. */
module ProductDetail {
  import opened Common
  import opened Products
  import Cart

  /** The page's state once the product and the topping table are loaded.
      An unset size is the empty string. */
  datatype Page = Page(
    product: Product,
    selectedSize: string,
    selectedToppings: seq<string>,
    toppingsData: map<string, Topping>,
    price: int)

  /** `loadProduct`: the first size key when the product has sizes, no
      toppings, the loaded topping table (`{}` when absent), and the base
      price. */
  function Loaded(p: Product, toppings: Option<map<string, Topping>>): (page: Page)
    ensures page.selectedToppings == [] && page.price == p.basePrice
    ensures page.selectedSize != "" <==> |p.sizes| > 0 && p.sizes[0].key != ""
    ensures |p.sizes| > 0 ==> SizeMultiplier(p.sizes, page.selectedSize) == Some(p.sizes[0].multiplier)
  {
    Page(p, if |p.sizes| > 0 then p.sizes[0].key else "", [],
         if toppings.Some? then toppings.value else map[], p.basePrice)
  }

  /** Every occurrence of `key` filtered out, the rest in order. */
  function RemoveAll(s: seq<string>, key: string): (r: seq<string>)
    ensures |r| <= |s|
    ensures forall t :: t in r <==> t in s && t != key
  {
    if s == [] then []
    else (if s[0] != key then [s[0]] else []) + RemoveAll(s[1..], key)
  }

  /** `toggleTopping(key)`: a selected key is removed, wherever and however
      often it occurs; an unselected one is appended. */
  function ToggleTopping(selected: seq<string>, key: string): (r: seq<string>)
    ensures key in selected ==> key !in r && forall t :: t in r <==> t in selected && t != key
    ensures key !in selected ==> r == selected + [key]
  {
    if key in selected then RemoveAll(selected, key) else selected + [key]
  }

  /** The price effect: the base price, multiplied when a size is chosen
      and offered, plus each selected topping found in the loaded table,
      rounded. */
  method RecomputePrice(p: Product, selectedSize: string, selectedToppings: seq<string>,
                        toppingsData: map<string, Topping>) returns (price: int)
    ensures price == Round(SizedPrice(p, selectedSize) + ToppingSum(toppingsData, selectedToppings))
  {
    var acc: real := p.basePrice as real;
    if selectedSize != "" {
      var m := SizeMultiplier(p.sizes, selectedSize);
      if m.Some? {
        acc := acc * m.value;
      }
    }
    assert selectedToppings[..0] == [];
    for i := 0 to |selectedToppings|
      invariant acc == SizedPrice(p, selectedSize) + ToppingSum(toppingsData, selectedToppings[..i])
    {
      var tk := selectedToppings[i];
      assert selectedToppings[..i + 1][..i] == selectedToppings[..i];
      if tk in toppingsData {
        acc := acc + toppingsData[tk].price as real;
      }
    }
    assert selectedToppings[..|selectedToppings|] == selectedToppings;
    price := Round(acc);
  }

  /** `handleAdd`: the addition handed to the cart. */
  function AdditionOf(page: Page): (a: Cart.Addition)
    ensures a.price == page.price && a.productId == Some(page.product.id) && a.id.None?
    ensures a.size == page.selectedSize && a.toppings == page.selectedToppings
  {
    Cart.Addition(Some(page.product.id), None, page.product.name, page.price, page.selectedSize, page.selectedToppings)
  }

  // ---------------------------------------------------------------------
  // Properties
  // ---------------------------------------------------------------------

  /** Filtering out a key that is not there changes nothing. */
  lemma {:induction false} RemoveAbsent(s: seq<string>, key: string)
    requires key !in s
    ensures RemoveAll(s, key) == s
  {
    if s != [] {
      assert key !in s[1..];
      RemoveAbsent(s[1..], key);
    }
  }

  /** Filtering distributes over concatenation. */
  lemma {:induction false} RemoveAppend(a: seq<string>, b: seq<string>, key: string)
    ensures RemoveAll(a + b, key) == RemoveAll(a, key) + RemoveAll(b, key)
  {
    if a == [] {
      assert a + b == b;
    } else {
      assert (a + b)[0] == a[0] && (a + b)[1..] == a[1..] + b;
      RemoveAppend(a[1..], b, key);
    }
  }

  /** Toggling a topping on and off again restores the selection. */
  lemma ToggleTwiceFromAbsent(selected: seq<string>, key: string)
    requires key !in selected
    ensures ToggleTopping(ToggleTopping(selected, key), key) == selected
  {
    RemoveAppend(selected, [key], key);
    RemoveAbsent(selected, key);
    assert RemoveAll([key], key) == [];
  }

  /** Toggling a selected topping off and on again moves it, once, to the
      end. */
  lemma ToggleTwiceFromPresent(selected: seq<string>, key: string)
    requires key in selected
    ensures ToggleTopping(ToggleTopping(selected, key), key) == RemoveAll(selected, key) + [key]
  {
  }

  /** A missing topping table (the load found none) makes every topping
      free. */
  lemma {:induction false} EmptyTableAddsNothing(keys: seq<string>)
    ensures ToppingSum(map[], keys) == 0.0
  {
    if keys != [] {
      EmptyTableAddsNothing(keys[..|keys| - 1]);
    }
  }

  /** Toggling on a topping the table knows raises the shown price by
      exactly that topping's price; one the table does not know leaves it. */
  lemma ToggleOnPrice(p: Product, size: string, selected: seq<string>, key: string, table: map<string, Topping>)
    requires key !in selected
    ensures var before := Round(SizedPrice(p, size) + ToppingSum(table, selected));
      var after := Round(SizedPrice(p, size) + ToppingSum(table, ToggleTopping(selected, key)));
      after == before + (if key in table then table[key].price else 0)
  {
    var s := ToggleTopping(selected, key);
    assert s[..|s| - 1] == selected;
    var n := if key in table then table[key].price else 0;
    assert ToppingSum(table, s) == ToppingSum(table, selected) + n as real;
    RoundShift(SizedPrice(p, size) + ToppingSum(table, selected), n);
  }

  /** With the server's topping table loaded, the page shows what the
      server's `calculatePrice` charges for the same product, size and
      toppings. */
  lemma SameAsServer(p: Product, size: string, selected: seq<string>)
    ensures Round(SizedPrice(p, size) + ToppingSum(Toppings, selected)) == PriceFor(Some(p), size, selected)
  {
  }

  /** On load, recomputing the price for the initial selection gives back
      the base price the page starts with, for every product of the
      catalog. */
  lemma LoadedPriceStable(i: int, toppings: Option<map<string, Topping>>)
    requires 0 <= i < |Catalog|
    ensures var page := Loaded(Catalog[i], toppings);
      Round(SizedPrice(page.product, page.selectedSize) + ToppingSum(page.toppingsData, page.selectedToppings))
      == Catalog[i].basePrice
  {
    var p := Catalog[i];
    assert p.sizes == PlovSizes || p.sizes == [] by {
      CatalogSizes(i);
    }
    var page := Loaded(p, toppings);
    if p.sizes == PlovSizes {
      assert page.selectedSize == "S";
      assert SizeMultiplier(p.sizes, "S") == Some(1.0);
    }
    assert SizedPrice(p, page.selectedSize) == p.basePrice as real;
    RoundShift(0.0, p.basePrice);
  }

  /** The first three dishes come in the plov sizes, the rest in none. */
  lemma CatalogSizes(i: int)
    requires 0 <= i < |Catalog|
    ensures i < 3 ==> Catalog[i].sizes == PlovSizes
    ensures i >= 3 ==> Catalog[i].sizes == []
  {
  }

  /** The cart line a product page adds is keyed by the product id and the
      size, so adding the same product and size twice, whatever the
      toppings, gives one line of quantity 2. */
  lemma AddTwiceOneLine(cart: seq<Cart.CartLine>, page: Page, toppings: seq<string>)
    requires Cart.WellFormed(cart) && page.product.id != 0
    requires !Cart.HasKey(cart, Cart.AdditionKey(AdditionOf(page)))
    ensures Cart.AdditionKey(AdditionOf(page)) == IntToString(page.product.id) + "-" + Cart.SizeText(page.selectedSize)
    ensures Cart.AddToCart(Cart.AddToCart(cart, AdditionOf(page)), AdditionOf(page.(selectedToppings := toppings)))
            == cart + [Cart.NewLine(AdditionOf(page)).(quantity := 2)]
  {
    Cart.ToppingsDoNotSplitLines(cart, AdditionOf(page), AdditionOf(page.(selectedToppings := toppings)));
  }
}
