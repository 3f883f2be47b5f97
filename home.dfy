/** The storefront home page's search: the menu sections shown for a
    search term, one per category that has something to show. */
module Home {
  import opened Common
  import opened Products

  /** A menu category: its id and its emoji. */
  datatype Category = Category(id: string, emoji: string)

  /** `CATEGORIES`, in display order. */
  const Categories: seq<Category> := [
    Category("plov", "🍚"),
    Category("shashlik", "🍢"),
    Category("bakery", "🥟"),
    Category("soups", "🍲")
  ]

  /** A displayed section: a category and the products shown under it. */
  datatype Section = Section(category: Category, products: seq<Product>)

  /** `allProducts[cat.id] || []`: the loaded products of a category. */
  function ProductsOf(all: map<string, seq<Product>>, id: string): (ps: seq<Product>)
    ensures id !in all ==> ps == []
    ensures id in all ==> ps == all[id]
  {
    if id in all then all[id] else []
  }

  /** The filter test: the lower-cased name contains the term, or the
      product has a description whose lower-cased text contains it. */
  predicate MatchesTerm(p: Product, lowerTerm: string) {
    Contains(ToLower(p.name), lowerTerm) || (p.description != "" && Contains(ToLower(p.description), lowerTerm))
  }

  /** `productsForCategory.filter(...)` */
  function FilterProducts(ps: seq<Product>, lowerTerm: string): (r: seq<Product>)
    ensures |r| <= |ps|
  {
    if ps == [] then []
    else (if MatchesTerm(ps[0], lowerTerm) then [ps[0]] else []) + FilterProducts(ps[1..], lowerTerm)
  }

  /** The search branch over a list of categories: each category with at
      least one match becomes a section of its matches. */
  function SearchSections(cats: seq<Category>, all: map<string, seq<Product>>, lowerTerm: string): seq<Section> {
    if cats == [] then []
    else
      var kept := FilterProducts(ProductsOf(all, cats[0].id), lowerTerm);
      (if |kept| > 0 then [Section(cats[0], kept)] else []) + SearchSections(cats[1..], all, lowerTerm)
  }

  /** The empty-term branch: every category with all of its products. */
  function AllSections(cats: seq<Category>, all: map<string, seq<Product>>): (r: seq<Section>)
    ensures |r| == |cats|
    ensures forall i :: 0 <= i < |cats| ==> r[i] == Section(cats[i], ProductsOf(all, cats[i].id))
  {
    if cats == [] then [] else [Section(cats[0], ProductsOf(all, cats[0].id))] + AllSections(cats[1..], all)
  }

  /** What `filteredCategories` evaluates to. */
  function FilteredSpec(all: map<string, seq<Product>>, searchTerm: string): seq<Section> {
    if searchTerm == "" then AllSections(Categories, all)
    else SearchSections(Categories, all, ToLower(searchTerm))
  }

  /** `filteredCategories`: the empty term maps every category; otherwise the
      loop over the categories pushes each one that keeps a product. */
  method FilteredCategories(all: map<string, seq<Product>>, searchTerm: string) returns (results: seq<Section>)
    ensures results == FilteredSpec(all, searchTerm)
  {
    if searchTerm == "" {
      return AllSections(Categories, all);
    }
    results := SearchLoop(Categories, all, ToLower(searchTerm));
  }

  /** The `for (const cat of CATEGORIES)` loop, over any list of categories. */
  method SearchLoop(cats: seq<Category>, all: map<string, seq<Product>>, lowerTerm: string) returns (results: seq<Section>)
    ensures results == SearchSections(cats, all, lowerTerm)
  {
    results := [];
    for i := 0 to |cats|
      invariant results + SearchSections(cats[i..], all, lowerTerm) == SearchSections(cats, all, lowerTerm)
    {
      var filtered := FilterProducts(ProductsOf(all, cats[i].id), lowerTerm);
      SearchSectionsStep(cats, i, all, lowerTerm, results);
      if |filtered| > 0 {
        results := results + [Section(cats[i], filtered)];
      }
    }
    assert cats[|cats|..] == [];
  }

  /** One step of the loop: the category at `i` contributes its section, if
      any, ahead of the rest. */
  lemma SearchSectionsStep(cats: seq<Category>, i: int, all: map<string, seq<Product>>, lowerTerm: string,
                           results: seq<Section>)
    requires 0 <= i < |cats|
    requires results + SearchSections(cats[i..], all, lowerTerm) == SearchSections(cats, all, lowerTerm)
    ensures var filtered := FilterProducts(ProductsOf(all, cats[i].id), lowerTerm);
      (if |filtered| > 0 then results + [Section(cats[i], filtered)] else results)
      + SearchSections(cats[i + 1..], all, lowerTerm) == SearchSections(cats, all, lowerTerm)
  {
    var filtered := FilterProducts(ProductsOf(all, cats[i].id), lowerTerm);
    var tail := SearchSections(cats[i + 1..], all, lowerTerm);
    SearchSectionsAt(cats, i, all, lowerTerm);
    if |filtered| > 0 {
      SectionsAssoc(results, [Section(cats[i], filtered)], tail);
    } else {
      assert [] + tail == tail;
    }
  }

  lemma SectionsAssoc(a: seq<Section>, b: seq<Section>, c: seq<Section>)
    ensures (a + b) + c == a + (b + c)
  {
  }

  /** Unfolding the search at position `i`. */
  lemma SearchSectionsAt(cats: seq<Category>, i: int, all: map<string, seq<Product>>, lowerTerm: string)
    requires 0 <= i < |cats|
    ensures var filtered := FilterProducts(ProductsOf(all, cats[i].id), lowerTerm);
      SearchSections(cats[i..], all, lowerTerm)
      == (if |filtered| > 0 then [Section(cats[i], filtered)] else []) + SearchSections(cats[i + 1..], all, lowerTerm)
  {
    assert cats[i..][0] == cats[i] && cats[i..][1..] == cats[i + 1..];
  }

  /** The number of products shown: the sum of the sections' sizes. */
  function FoundCount(sections: seq<Section>): nat {
    if sections == [] then 0 else |sections[0].products| + FoundCount(sections[1..])
  }

  /** The result line under the search box: the count when positive,
      nothing otherwise. */
  function ResultCountText(sections: seq<Section>): (s: string)
    ensures s == "" <==> FoundCount(sections) == 0
  {
    var n := FoundCount(sections);
    if n > 0 then "Найдено: " + NatToString(n) + " блюд" else ""
  }

  /** `a` is `b` with some elements left out, in the same order. */
  predicate Subsequence<T(==)>(a: seq<T>, b: seq<T>) {
    if a == [] then true
    else if b == [] then false
    else if a[0] == b[0] then Subsequence(a[1..], b[1..])
    else Subsequence(a, b[1..])
  }

  // ---------------------------------------------------------------------
  // Properties
  // ---------------------------------------------------------------------

  /** An empty term shows all four categories in order, each with all of
      its loaded products (none for a category that failed to load). */
  lemma EmptyTermShowsAll(all: map<string, seq<Product>>)
    ensures |FilteredSpec(all, "")| == 4
    ensures forall i :: 0 <= i < 4 ==>
      FilteredSpec(all, "")[i].category == Categories[i]
      && FilteredSpec(all, "")[i].products == ProductsOf(all, Categories[i].id)
  {
  }

  /** A product is kept by the filter exactly when it is in the category
      and matches the term. */
  lemma {:induction false} FilterKeepsMatches(ps: seq<Product>, lowerTerm: string)
    ensures forall p :: p in FilterProducts(ps, lowerTerm) <==> p in ps && MatchesTerm(p, lowerTerm)
  {
    if ps != [] {
      FilterKeepsMatches(ps[1..], lowerTerm);
      assert forall p :: p in ps <==> p == ps[0] || p in ps[1..];
    }
  }

  /** The kept products are in their original order. */
  lemma {:induction false} FilterIsSubsequence(ps: seq<Product>, lowerTerm: string)
    ensures Subsequence(FilterProducts(ps, lowerTerm), ps)
  {
    if ps != [] {
      FilterIsSubsequence(ps[1..], lowerTerm);
      var rest := FilterProducts(ps[1..], lowerTerm);
      if MatchesTerm(ps[0], lowerTerm) {
        assert FilterProducts(ps, lowerTerm) == [ps[0]] + rest;
        assert ([ps[0]] + rest)[1..] == rest;
      } else {
        assert FilterProducts(ps, lowerTerm) == rest;
        SkipFront(rest, ps);
      }
    }
  }

  /** A subsequence of the tail is a subsequence of the whole. */
  lemma {:induction false} SkipFront<T>(a: seq<T>, b: seq<T>)
    requires b != [] && Subsequence(a, b[1..])
    ensures Subsequence(a, b)
    decreases |b|, 0
  {
    if a != [] && a[0] == b[0] {
      SubsequenceTail(a, b[1..]);
    }
  }

  /** Dropping the first element of a subsequence keeps it a subsequence. */
  lemma {:induction false} SubsequenceTail<T>(a: seq<T>, b: seq<T>)
    requires a != [] && Subsequence(a, b)
    ensures Subsequence(a[1..], b)
    decreases |b|, 1
  {
    assert b != [];
    if a[0] != b[0] {
      SubsequenceTail(a, b[1..]);
    }
    if a[1..] != [] {
      SkipFront(a[1..], b);
    }
  }

  /** With a term, every shown section is non-empty and holds exactly the
      matching products of its category. */
  lemma {:induction false} SearchSectionsMatch(cats: seq<Category>, all: map<string, seq<Product>>, lowerTerm: string)
    ensures var r := SearchSections(cats, all, lowerTerm);
      && |r| <= |cats|
      && (forall k :: 0 <= k < |r| ==> |r[k].products| > 0)
      && (forall k :: 0 <= k < |r| ==> r[k].products == FilterProducts(ProductsOf(all, r[k].category.id), lowerTerm))
  {
    if cats != [] {
      SearchSectionsMatch(cats[1..], all, lowerTerm);
      var rest := SearchSections(cats[1..], all, lowerTerm);
      var kept := FilterProducts(ProductsOf(all, cats[0].id), lowerTerm);
      if |kept| > 0 {
        var r := [Section(cats[0], kept)] + rest;
        assert SearchSections(cats, all, lowerTerm) == r;
        assert forall k :: 1 <= k < |r| ==> r[k] == rest[k - 1];
      } else {
        assert SearchSections(cats, all, lowerTerm) == rest;
      }
    }
  }

  /** With a term, the shown categories keep their list order. */
  lemma {:induction false} SearchSectionsInOrder(cats: seq<Category>, all: map<string, seq<Product>>, lowerTerm: string)
    ensures Subsequence(CategoriesOf(SearchSections(cats, all, lowerTerm)), cats)
  {
    if cats != [] {
      SearchSectionsInOrder(cats[1..], all, lowerTerm);
      var rest := SearchSections(cats[1..], all, lowerTerm);
      var kept := FilterProducts(ProductsOf(all, cats[0].id), lowerTerm);
      if |kept| > 0 {
        var r := [Section(cats[0], kept)] + rest;
        assert SearchSections(cats, all, lowerTerm) == r;
        assert r[1..] == rest;
        assert CategoriesOf(r)[0] == cats[0];
        assert CategoriesOf(r)[1..] == CategoriesOf(rest);
      } else {
        assert SearchSections(cats, all, lowerTerm) == rest;
        SkipFront(CategoriesOf(rest), cats);
      }
    }
  }

  /** The categories of a list of sections. */
  function CategoriesOf(sections: seq<Section>): (cs: seq<Category>)
    ensures |cs| == |sections|
    ensures forall k :: 0 <= k < |sections| ==> cs[k] == sections[k].category
  {
    if sections == [] then [] else [sections[0].category] + CategoriesOf(sections[1..])
  }

  /** Some section of `sections` is for category `c`. */
  predicate Shown(sections: seq<Section>, c: Category) {
    exists k :: 0 <= k < |sections| && sections[k].category == c
  }

  /** A section list with one more section in front shows that section's
      category and whatever the rest shows. */
  lemma ShownCons(section: Section, rest: seq<Section>, c: Category)
    ensures Shown([section] + rest, c) <==> section.category == c || Shown(rest, c)
  {
    var r := [section] + rest;
    if Shown(r, c) {
      var k :| 0 <= k < |r| && r[k].category == c;
      if k > 0 {
        assert rest[k - 1] == r[k];
      }
    }
    if Shown(rest, c) {
      var k :| 0 <= k < |rest| && rest[k].category == c;
      assert r[k + 1] == rest[k];
    }
    if section.category == c {
      assert r[0] == section;
    }
  }

  /** A category is shown for a term exactly when one of its products
      matches. */
  lemma {:induction false} CategoryShownIff(cats: seq<Category>, all: map<string, seq<Product>>, lowerTerm: string, c: Category)
    requires c in cats
    requires forall i, j :: 0 <= i < j < |cats| ==> cats[i] != cats[j]
    ensures Shown(SearchSections(cats, all, lowerTerm), c)
      <==> exists p :: p in ProductsOf(all, c.id) && MatchesTerm(p, lowerTerm)
  {
    var kept := FilterProducts(ProductsOf(all, cats[0].id), lowerTerm);
    var rest := SearchSections(cats[1..], all, lowerTerm);
    if |kept| > 0 {
      assert SearchSections(cats, all, lowerTerm) == [Section(cats[0], kept)] + rest;
      ShownCons(Section(cats[0], kept), rest, c);
    } else {
      assert SearchSections(cats, all, lowerTerm) == rest;
    }
    if cats[0] == c {
      assert c !in cats[1..] by {
        forall j | 0 <= j < |cats[1..]| ensures cats[1..][j] != c {
          assert cats[1..][j] == cats[j + 1];
        }
      }
      NotShown(cats[1..], all, lowerTerm, c);
      FilterKeepsMatches(ProductsOf(all, c.id), lowerTerm);
      if |kept| > 0 {
        assert kept[0] in kept;
      } else {
        assert forall p :: p in ProductsOf(all, c.id) && MatchesTerm(p, lowerTerm) ==> p in kept;
      }
    } else {
      assert c in cats[1..] by {
        var i :| 0 <= i < |cats| && cats[i] == c;
        assert cats[1..][i - 1] == c;
      }
      assert forall i, j :: 0 <= i < j < |cats[1..]| ==> cats[1..][i] != cats[1..][j] by {
        forall i, j | 0 <= i < j < |cats[1..]| ensures cats[1..][i] != cats[1..][j] {
          assert cats[1..][i] == cats[i + 1] && cats[1..][j] == cats[j + 1];
        }
      }
      CategoryShownIff(cats[1..], all, lowerTerm, c);
    }
  }

  /** A category not in the list is never shown. */
  lemma {:induction false} NotShown(cats: seq<Category>, all: map<string, seq<Product>>, lowerTerm: string, c: Category)
    requires c !in cats
    ensures !Shown(SearchSections(cats, all, lowerTerm), c)
  {
    if cats != [] {
      assert c !in cats[1..] by {
        forall j | 0 <= j < |cats[1..]| ensures cats[1..][j] != c {
          assert cats[1..][j] == cats[j + 1];
        }
      }
      NotShown(cats[1..], all, lowerTerm, c);
      var kept := FilterProducts(ProductsOf(all, cats[0].id), lowerTerm);
      var rest := SearchSections(cats[1..], all, lowerTerm);
      if |kept| > 0 {
        assert SearchSections(cats, all, lowerTerm) == [Section(cats[0], kept)] + rest;
        ShownCons(Section(cats[0], kept), rest, c);
      } else {
        assert SearchSections(cats, all, lowerTerm) == rest;
      }
    }
  }

  /** The count under the search box is zero exactly when no product of any
      category matches the term. */
  lemma {:induction false} FoundCountZeroIff(cats: seq<Category>, all: map<string, seq<Product>>, lowerTerm: string)
    ensures FoundCount(SearchSections(cats, all, lowerTerm)) == 0
      <==> forall i, p :: 0 <= i < |cats| && p in ProductsOf(all, cats[i].id) ==> !MatchesTerm(p, lowerTerm)
  {
    if cats != [] {
      FoundCountZeroIff(cats[1..], all, lowerTerm);
      FilterKeepsMatches(ProductsOf(all, cats[0].id), lowerTerm);
      var kept := FilterProducts(ProductsOf(all, cats[0].id), lowerTerm);
      var rest := SearchSections(cats[1..], all, lowerTerm);
      if |kept| > 0 {
        var r := [Section(cats[0], kept)] + rest;
        assert SearchSections(cats, all, lowerTerm) == r;
        assert r[1..] == rest;
        assert kept[0] in kept;
      } else {
        assert SearchSections(cats, all, lowerTerm) == rest;
        assert forall p :: p in ProductsOf(all, cats[0].id) ==> !MatchesTerm(p, lowerTerm);
        assert forall i :: 1 <= i < |cats| ==> cats[i] == cats[1..][i - 1];
      }
    }
  }

  /** The four categories have distinct ids, hence are distinct. */
  lemma CategoriesDistinct()
    ensures forall i, j :: 0 <= i < j < |Categories| ==> Categories[i].id != Categories[j].id
    ensures forall i, j :: 0 <= i < j < |Categories| ==> Categories[i] != Categories[j]
  {
    assert Categories[0].id[0] == 'p' && Categories[1].id[0] == 's' && Categories[2].id[0] == 'b';
    assert Categories[3].id[0] == 's' && Categories[1].id[1] == 'h' && Categories[3].id[1] == 'o';
  }
}
