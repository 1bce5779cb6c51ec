/**
 * The product record and the two views the provider derives from the product list:
 * the filtered products and the distinct categories.
 */
module Catalog {
  import opened Text

  /** `rating: { rate, count }`; the values are carried along, nothing reads them. */
  datatype Rating = Rating(rate: real, count: int)

  /** One catalog entry, field for field as the catalog service returns it. */
  datatype Product = Product(
    id: int,
    title: string,
    price: real,
    description: string,
    category: string,
    image: string,
    rating: Rating)

  // ---------------------------------------------------------------------------
  // Filtered view
  // ---------------------------------------------------------------------------

  /**
   * The predicate handed to `products.filter`: the category filter is off when empty,
   * otherwise it must equal the product's category; and the lower-cased title must
   * include the lower-cased query.
   */
  predicate Matches(p: Product, selectedCategory: string, searchQuery: string) {
    (selectedCategory == "" || p.category == selectedCategory) &&
    Includes(Lower(p.title), Lower(searchQuery))
  }

  /** `products.filter(p => Matches(p, selectedCategory, searchQuery))`. */
  function Filtered(products: seq<Product>, selectedCategory: string, searchQuery: string): (r: seq<Product>)
    ensures |r| <= |products|
    ensures forall k :: 0 <= k < |r| ==> r[k] in products && Matches(r[k], selectedCategory, searchQuery)
  {
    if products == [] then []
    else
      var rest := Filtered(products[1..], selectedCategory, searchQuery);
      if Matches(products[0], selectedCategory, searchQuery) then [products[0]] + rest else rest
  }

  /** With no category and an empty query nothing is filtered out and the order is kept. */
  lemma {:induction false} FilteredWithoutFilters(products: seq<Product>)
    ensures Filtered(products, "", "") == products
  {
    if products != [] {
      FilteredWithoutFilters(products[1..]);
    }
  }

  /** A product is in the view iff it is in the list and passes the predicate. */
  lemma {:induction false} FilteredMembership(products: seq<Product>, selectedCategory: string, searchQuery: string)
    ensures forall p :: p in Filtered(products, selectedCategory, searchQuery) <==>
                        p in products && Matches(p, selectedCategory, searchQuery)
  {
    if products != [] {
      FilteredMembership(products[1..], selectedCategory, searchQuery);
      assert products == [products[0]] + products[1..];
    }
  }

  /**
   * With a category selected, a product is kept iff it has that category and the lower-cased
   * query is a substring of its lower-cased title: nothing qualifying is dropped, nothing else kept.
   */
  lemma FilteredByCategory(products: seq<Product>, selectedCategory: string, searchQuery: string, p: Product)
    requires selectedCategory != ""
    ensures p in Filtered(products, selectedCategory, searchQuery) <==>
            p in products && p.category == selectedCategory &&
            IsSubstring(Lower(searchQuery), Lower(p.title))
  {
    FilteredMembership(products, selectedCategory, searchQuery);
    IncludesIsSubstring(Lower(p.title), Lower(searchQuery));
  }

  /** With no category selected, the view is the text search alone. */
  lemma FilteredBySearch(products: seq<Product>, searchQuery: string, p: Product)
    ensures p in Filtered(products, "", searchQuery) <==>
            p in products && IsSubstring(Lower(searchQuery), Lower(p.title))
  {
    FilteredMembership(products, "", searchQuery);
    IncludesIsSubstring(Lower(p.title), Lower(searchQuery));
  }

  /** The indices `idx` pick out `r` from `products`, strictly left to right. */
  ghost predicate SelectsInOrder(idx: seq<nat>, products: seq<Product>, r: seq<Product>) {
    |idx| == |r| &&
    (forall k :: 0 <= k < |idx| ==> idx[k] < |products| && r[k] == products[idx[k]]) &&
    (forall k, l :: 0 <= k < l < |idx| ==> idx[k] < idx[l])
  }

  /** The positions listed in `idx` are exactly those whose product passes the predicate. */
  ghost predicate ListsMatching(idx: seq<nat>, products: seq<Product>, selectedCategory: string, searchQuery: string) {
    forall i :: 0 <= i < |products| ==> (i in idx <==> Matches(products[i], selectedCategory, searchQuery))
  }

  /** Every index moved one place to the right. */
  function Shift(idx: seq<nat>): (r: seq<nat>)
    ensures |r| == |idx| && forall k :: 0 <= k < |idx| ==> r[k] == idx[k] + 1
  {
    seq(|idx|, k requires 0 <= k < |idx| => idx[k] + 1)
  }

  /** A selection from the tail, shifted, selects from the whole list, with or without the head. */
  lemma ShiftSelects(idx: seq<nat>, products: seq<Product>, r: seq<Product>)
    requires products != [] && SelectsInOrder(idx, products[1..], r)
    ensures SelectsInOrder(Shift(idx), products, r)
    ensures SelectsInOrder([0] + Shift(idx), products, [products[0]] + r)
  {
  }

  /** The matching positions of the tail, shifted, plus 0 when the head matches, are those of the whole list. */
  lemma ShiftLists(idx: seq<nat>, products: seq<Product>, selectedCategory: string, searchQuery: string)
    requires products != [] && ListsMatching(idx, products[1..], selectedCategory, searchQuery)
    ensures var keep := Matches(products[0], selectedCategory, searchQuery);
            ListsMatching(if keep then [0] + Shift(idx) else Shift(idx), products, selectedCategory, searchQuery)
  {
  }

  /**
   * The view is an order-preserving subsequence of the list, and the positions it keeps
   * are exactly the positions whose product passes the predicate.
   */
  lemma {:induction false} FilteredIsSubsequence(products: seq<Product>, selectedCategory: string, searchQuery: string)
    returns (idx: seq<nat>)
    ensures SelectsInOrder(idx, products, Filtered(products, selectedCategory, searchQuery))
    ensures ListsMatching(idx, products, selectedCategory, searchQuery)
  {
    if products == [] {
      idx := [];
    } else {
      var tail := FilteredIsSubsequence(products[1..], selectedCategory, searchQuery);
      ShiftSelects(tail, products, Filtered(products[1..], selectedCategory, searchQuery));
      ShiftLists(tail, products, selectedCategory, searchQuery);
      if Matches(products[0], selectedCategory, searchQuery) {
        idx := [0] + Shift(tail);
      } else {
        idx := Shift(tail);
      }
    }
  }

  // ---------------------------------------------------------------------------
  // Distinct categories
  // ---------------------------------------------------------------------------

  ghost predicate NoDuplicates(s: seq<string>) {
    forall i, j :: 0 <= i < j < |s| ==> s[i] != s[j]
  }

  /**
   * `Array.from(new Set(products.map(p => p.category)))`: the categories of all but the last
   * product, with the last product's category appended unless the set already holds it
   * (a `Set` keeps insertion order).
   */
  function Categories(products: seq<Product>): (r: seq<string>)
    ensures NoDuplicates(r)
    decreases |products|
  {
    if products == [] then []
    else
      var seen := Categories(products[..|products| - 1]);
      var c := products[|products| - 1].category;
      if c in seen then seen else seen + [c]
  }

  /** A string is a category iff some product has it. */
  lemma {:induction false} CategoriesMembership(products: seq<Product>)
    ensures forall c :: c in Categories(products) <==> exists p :: p in products && p.category == c
    decreases |products|
  {
    if products != [] {
      var init := products[..|products| - 1];
      CategoriesMembership(init);
      assert products == init + [products[|products| - 1]];
    }
  }

  /** Position of the first product with category `c`, or `|products|` when there is none. */
  function FirstIndex(products: seq<Product>, c: string): (k: nat)
    ensures k <= |products|
    ensures k < |products| ==> products[k].category == c
    ensures forall j :: 0 <= j < k ==> products[j].category != c
  {
    if products == [] then 0
    else if products[0].category == c then 0
    else 1 + FirstIndex(products[1..], c)
  }

  /** Appending a product does not move a category's first occurrence in what came before. */
  lemma FirstIndexOfPrefix(init: seq<Product>, last: Product, c: string)
    ensures var k := FirstIndex(init, c);
            FirstIndex(init + [last], c) == if k < |init| then k else if last.category == c then |init| else |init| + 1
  {
    var k := FirstIndex(init, c);
    var k' := FirstIndex(init + [last], c);
    if k < |init| {
      assert (init + [last])[k] == init[k];
      assert k' <= k;
      assert k' < |init| ==> (init + [last])[k'] == init[k'];
    } else {
      assert forall j :: 0 <= j < |init| ==> (init + [last])[j] == init[j];
      assert (init + [last])[|init|] == last;
      assert k' >= |init|;
    }
  }

  /** Each of `r` occurs in `products`, and `r` lists them by increasing first occurrence. */
  ghost predicate FirstSeenOrder(products: seq<Product>, r: seq<string>) {
    (forall i :: 0 <= i < |r| ==> FirstIndex(products, r[i]) < |products|) &&
    (forall i, j :: 0 <= i < j < |r| ==> FirstIndex(products, r[i]) < FirstIndex(products, r[j]))
  }

  /**
   * Categories are listed in the order of their first occurrence among the products, and each
   * one's first occurrence is a real position in the list.
   */
  lemma {:induction false} CategoriesFirstSeenOrder(products: seq<Product>)
    ensures FirstSeenOrder(products, Categories(products))
    decreases |products|
  {
    if products != [] {
      var init := products[..|products| - 1];
      var last := products[|products| - 1];
      assert products == init + [last];
      CategoriesFirstSeenOrder(init);
      var seen := Categories(init);
      forall i | 0 <= i < |seen|
        ensures FirstIndex(products, seen[i]) == FirstIndex(init, seen[i]) < |init|
      {
        assert FirstIndex(init, seen[i]) < |init|;
        FirstIndexOfPrefix(init, last, seen[i]);
      }
      if last.category !in seen {
        CategoriesMembership(init);
        assert FirstIndex(init, last.category) == |init|;
        FirstIndexOfPrefix(init, last, last.category);
      }
    }
  }
}
