/** The menu: the catalog and topping tables, the lookups by id and by
    category, and the server's price computation. */
module Products {
  import opened Common

  /** One entry of a product's `sizes` object. Multipliers are exact
      rationals here. */
  datatype SizeOption = SizeOption(key: string, multiplier: real, caption: string)

  /** A dish. `sizes: null` and `toppings: null` are empty sequences: every
      use of them treats `null` like an object or array with no entries. The
      image path is left out. */
  datatype Product = Product(
    id: int,
    name: string,
    category: string,
    description: string,
    basePrice: int,
    sizes: seq<SizeOption>,
    toppings: seq<string>)

  datatype Topping = Topping(name: string, price: int)

  const PlovSizes: seq<SizeOption> := [
    SizeOption("S", 1.0, "1 порция (400г)"),
    SizeOption("M", 1.8, "2 порции (800г)"),
    SizeOption("L", 4.0, "Казан (2кг)")
  ]

  /** `products` */
  const Catalog: seq<Product> := [
    Product(1, "Плов Ташкентский", "plov",
            "Классический плов из девзиры с бараниной, морковью и нутом по-ташкентски",
            45000, PlovSizes, ["extra_meat", "quail_eggs", "garlic_head"]),
    Product(2, "Плов Самаркандский", "plov",
            "Ароматный плов по-самаркандски с курдюком, жёлтой морковью и зирой",
            50000, PlovSizes, ["extra_meat", "quail_eggs", "raisins"]),
    Product(3, "Плов Праздничный", "plov",
            "Особый плов с бараниной, изюмом, барбарисом и перепелиными яйцами",
            65000, PlovSizes, ["extra_meat", "quail_eggs", "garlic_head", "raisins"]),
    Product(4, "Шашлык из баранины", "shashlik",
            "Сочный шашлык из отборной баранины на углях, маринованный в луке и специях",
            55000, [], ["extra_onion", "adjika"]),
    Product(5, "Шашлык из курицы", "shashlik",
            "Нежный куриный шашлык с ароматными травами, подаётся с лавашом",
            38000, [], ["extra_onion", "adjika"]),
    Product(6, "Люля-кебаб", "shashlik",
            "Рубленый кебаб из баранины со специями, приготовленный на мангале",
            42000, [], ["extra_onion", "adjika"]),
    Product(7, "Казан-кабоб", "shashlik",
            "Мясо с овощами и картофелем, томлённое в чугунном казане",
            48000, [], ["extra_meat"]),
    Product(8, "Самса с мясом", "bakery",
            "Хрустящие слоёные треугольники с сочной начинкой из баранины и лука",
            18000, [], []),
    Product(9, "Самса с тыквой", "bakery",
            "Вегетарианская самса с нежной тыквенной начинкой и специями",
            15000, [], []),
    Product(10, "Тандир нон", "bakery",
            "Традиционная узбекская лепёшка из тандыра, хрустящая и ароматная",
            8000, [], []),
    Product(11, "Чебурек", "bakery",
            "Жареный пирожок с хрустящим тестом и мясной начинкой",
            20000, [], []),
    Product(12, "Шурпа", "soups",
            "Наваристый суп из баранины с крупными кусками овощей и зеленью",
            35000, [], []),
    Product(13, "Лагман", "soups",
            "Густой суп с домашней лапшой, мясом и обжаренными овощами",
            38000, [], []),
    Product(14, "Мастава", "soups",
            "Сытный рисовый суп с бараниной, овощами и зеленью, подаётся с катыком",
            32000, [], [])
  ]

  /** `toppings`, keyed by topping key. */
  const Toppings: map<string, Topping> := map[
    "extra_meat" := Topping("Доп. мясо", 15000),
    "quail_eggs" := Topping("Перепелиные яйца (3 шт)", 8000),
    "garlic_head" := Topping("Головка чеснока", 3000),
    "raisins" := Topping("Изюм", 5000),
    "extra_onion" := Topping("Доп. маринованный лук", 5000),
    "adjika" := Topping("Аджика домашняя", 5000)
  ]

  /** Product `i` of the catalog has id `i + 1`. */
  lemma CatalogIds()
    ensures |Catalog| == 14
    ensures forall i :: 0 <= i < |Catalog| ==> Catalog[i].id == i + 1
  {
  }

  // ---------------------------------------------------------------------
  // getProductById
  // ---------------------------------------------------------------------

  /** `find(p => p.id === n)`: the first product with that id. */
  function FindProduct(ps: seq<Product>, n: int): (r: Option<Product>)
    ensures r.None? <==> forall i :: 0 <= i < |ps| ==> ps[i].id != n
    ensures r.Some? ==> r.value.id == n && r.value in ps
  {
    if ps == [] then None
    else if ps[0].id == n then Some(ps[0])
    else FindProduct(ps[1..], n)
  }

  /** `getProductById(id)`: the id goes through `parseInt`, so any text it
      reads as 1..14 (`"01"`, `" 7"`, `"3abc"`) finds that dish; NaN and
      every other number match nothing. */
  function GetProductById(id: string): (r: Option<Product>)
    ensures r.Some? ==> ParseInt(id) == Some(r.value.id) && r.value in Catalog
    ensures r.None? <==> ParseInt(id).None? || !(1 <= ParseInt(id).value <= 14)
    ensures ParseInt(id).Some? && 1 <= ParseInt(id).value <= 14 ==> r == Some(Catalog[ParseInt(id).value - 1])
  {
    match ParseInt(id)
    case None => None
    case Some(n) =>
      FindInCatalog(n);
      FindProduct(Catalog, n)
  }

  /** Catalog ids are distinct, so a lookup returns the one product with that id. */
  lemma FindUnique(ps: seq<Product>, i: int)
    requires 0 <= i < |ps|
    requires forall j, k :: 0 <= j < k < |ps| ==> ps[j].id != ps[k].id
    ensures FindProduct(ps, ps[i].id) == Some(ps[i])
  {
    var r := FindProduct(ps, ps[i].id);
    var k :| 0 <= k < |ps| && ps[k] == r.value;
  }

  /** The decimal id of each catalog product finds that product; ids outside
      1..14 find nothing. */
  lemma GetProductByIdCatalog(n: int)
    ensures 1 <= n <= 14 ==> GetProductById(IntToString(n)) == Some(Catalog[n - 1])
    ensures !(1 <= n <= 14) ==> GetProductById(IntToString(n)).None?
  {
    ParseIntOfIntToString(n);
    FindInCatalog(n);
    assert GetProductById(IntToString(n)) == FindProduct(Catalog, n);
  }

  lemma FindInCatalog(n: int)
    ensures 1 <= n <= 14 ==> FindProduct(Catalog, n) == Some(Catalog[n - 1])
    ensures !(1 <= n <= 14) ==> FindProduct(Catalog, n).None?
  {
    CatalogIds();
    if 1 <= n <= 14 {
      FindUnique(Catalog, n - 1);
    }
  }

  // ---------------------------------------------------------------------
  // getProductsByCategory
  // ---------------------------------------------------------------------

  /** `filter(p => p.category === category)` */
  function InCategory(ps: seq<Product>, category: string): (r: seq<Product>)
    ensures |r| <= |ps|
    ensures forall p :: p in r <==> p in ps && p.category == category
  {
    if ps == [] then []
    else (if ps[0].category == category then [ps[0]] else []) + InCategory(ps[1..], category)
  }

  function GetProductsByCategory(category: string): seq<Product> {
    InCategory(Catalog, category)
  }

  /** The filter keeps catalog order: it distributes over concatenation. */
  lemma {:induction false} InCategoryAppend(a: seq<Product>, b: seq<Product>, category: string)
    ensures InCategory(a + b, category) == InCategory(a, category) + InCategory(b, category)
  {
    if a != [] {
      assert (a + b)[1..] == a[1..] + b;
      InCategoryAppend(a[1..], b, category);
    } else {
      assert a + b == b;
    }
  }

  // ---------------------------------------------------------------------
  // calculatePrice
  // ---------------------------------------------------------------------

  /** `Math.round`: halves go up. */
  function Round(x: real): (r: int)
    ensures r as real - 0.5 <= x < r as real + 0.5
  {
    (x + 0.5).Floor
  }

  /** `product.sizes[size]`: the first entry with that key. */
  function SizeMultiplier(sizes: seq<SizeOption>, size: string): (r: Option<real>)
    ensures r.None? <==> forall i :: 0 <= i < |sizes| ==> sizes[i].key != size
  {
    if sizes == [] then None
    else if sizes[0].key == size then Some(sizes[0].multiplier)
    else SizeMultiplier(sizes[1..], size)
  }

  /** The base price, multiplied when a size is given and the product has it. */
  function SizedPrice(p: Product, size: string): real {
    if size != "" then
      match SizeMultiplier(p.sizes, size)
      case Some(m) => p.basePrice as real * m
      case None => p.basePrice as real
    else p.basePrice as real
  }

  /** The prices of the selected keys found in the table, summed in order. */
  function ToppingSum(table: map<string, Topping>, keys: seq<string>): real {
    if keys == [] then 0.0
    else
      ToppingSum(table, keys[..|keys| - 1])
      + (if keys[|keys| - 1] in table then table[keys[|keys| - 1]].price as real else 0.0)
  }

  /** What `calculatePrice(productId, size, selectedToppings)` returns. */
  function PriceSpec(productId: string, size: string, selectedToppings: seq<string>): int {
    PriceFor(GetProductById(productId), size, selectedToppings)
  }

  function PriceFor(product: Option<Product>, size: string, selectedToppings: seq<string>): int {
    match product
    case None => 0
    case Some(p) => Round(SizedPrice(p, size) + ToppingSum(Toppings, selectedToppings))
  }

  /** `calculatePrice`: an unknown id costs 0; otherwise the price of the
      product found. An absent size is the empty string. */
  method CalculatePrice(productId: string, size: string, selectedToppings: seq<string>)
    returns (price: int)
    ensures price == PriceSpec(productId, size, selectedToppings)
  {
    var product := GetProductById(productId);
    if product.None? {
      return 0;
    }
    var p := product.value;
    price := PriceOf(p, size, selectedToppings);
    assert price == Round(SizedPrice(p, size) + ToppingSum(Toppings, selectedToppings));
  }

  /** The body of `calculatePrice` once the product is found: multiply when
      the size is offered, then add each known topping in turn, then round. */
  method PriceOf(p: Product, size: string, selectedToppings: seq<string>) returns (price: int)
    ensures price == Round(SizedPrice(p, size) + ToppingSum(Toppings, selectedToppings))
  {
    var acc: real := p.basePrice as real;
    if size != "" {
      var m := SizeMultiplier(p.sizes, size);
      if m.Some? {
        acc := acc * m.value;
      }
    }
    assert selectedToppings[..0] == [];
    var i := 0;
    while i < |selectedToppings|
      invariant 0 <= i <= |selectedToppings|
      invariant acc == SizedPrice(p, size) + ToppingSum(Toppings, selectedToppings[..i])
    {
      var k := selectedToppings[i];
      assert selectedToppings[..i + 1][..i] == selectedToppings[..i];
      if k in Toppings {
        acc := acc + Toppings[k].price as real;
      }
      i := i + 1;
    }
    assert selectedToppings[..i] == selectedToppings;
    price := Round(acc);
  }

  /** Toppings sum over concatenation. */
  lemma {:induction false} ToppingSumAppend(table: map<string, Topping>, a: seq<string>, b: seq<string>)
    ensures ToppingSum(table, a + b) == ToppingSum(table, a) + ToppingSum(table, b)
    decreases |b|
  {
    if b != [] {
      var b' := b[..|b| - 1];
      assert (a + b)[..|a + b| - 1] == a + b';
      ToppingSumAppend(table, a, b');
    } else {
      assert a + b == a;
    }
  }

  /** A key the table lacks adds nothing, wherever it stands. */
  lemma UnknownToppingSkipped(table: map<string, Topping>, a: seq<string>, k: string, b: seq<string>)
    requires k !in table
    ensures ToppingSum(table, a + [k] + b) == ToppingSum(table, a + b)
  {
    ToppingSumAppend(table, a + [k], b);
    ToppingSumAppend(table, a, b);
    assert (a + [k])[..|a + [k]| - 1] == a;
  }

  /** An unknown id costs 0. */
  lemma UnknownProductFree(id: string, size: string, selectedToppings: seq<string>)
    requires GetProductById(id).None?
    ensures PriceSpec(id, size, selectedToppings) == 0
  {
  }

  /** With no size, or a size the product does not offer, and no toppings
      a found product costs its base price. */
  lemma PlainPrice(p: Product, size: string)
    requires size == "" || SizeMultiplier(p.sizes, size).None?
    ensures PriceFor(Some(p), size, []) == p.basePrice
  {
    RoundShift(0.0, p.basePrice);
  }

  /** A known topping appended to the selection adds exactly its price. */
  lemma KnownToppingAdds(p: Product, size: string, selectedToppings: seq<string>, k: string)
    requires k in Toppings
    ensures PriceFor(Some(p), size, selectedToppings + [k]) == PriceFor(Some(p), size, selectedToppings) + Toppings[k].price
  {
    assert (selectedToppings + [k])[..|selectedToppings|] == selectedToppings;
    RoundShift(SizedPrice(p, size) + ToppingSum(Toppings, selectedToppings), Toppings[k].price);
  }

  /** Adding a whole number before rounding adds it after. */
  lemma RoundShift(x: real, n: int)
    ensures Round(x + n as real) == Round(x) + n
  {
    assert x + n as real + 0.5 == (x + 0.5) + n as real;
  }

  /** A two-portion Tashkent plov with extra meat: 45000 × 1.8 + 15000. */
  lemma PlovExample()
    ensures PriceSpec("1", "M", ["extra_meat"]) == 96000
  {
    TashkentPlovLookup();
    TashkentPlovTwoPortions();
    ExtraMeatOnly();
    assert PriceSpec("1", "M", ["extra_meat"]) == PriceFor(Some(Catalog[0]), "M", ["extra_meat"]);
  }

  lemma TashkentPlovLookup()
    ensures GetProductById("1") == Some(Catalog[0])
  {
    GetProductByIdCatalog(1);
    assert IntToString(1) == "1";
  }

  lemma TashkentPlovTwoPortions()
    ensures SizedPrice(Catalog[0], "M") == 81000.0
  {
    assert SizeMultiplier(Catalog[0].sizes, "M") == Some(1.8);
  }

  lemma ExtraMeatOnly()
    ensures ToppingSum(Toppings, ["extra_meat"]) == 15000.0
  {
    assert ["extra_meat"][..0] == [];
  }
}
