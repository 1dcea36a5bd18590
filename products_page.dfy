/**
 * The catalogue page: the filter over the fetched products, the sort chosen by the
 * customer, the category list with its counts, the upper bound of the price slider,
 * and the guard on the add-to-cart button.
 *
 * Prices are integer Rappen, so the page's 100 CHF rounding step is 10000 and its
 * default upper price bound of 1000 CHF is 100000.
 */
module ProductsPage {
  import opened Wrappers
  import Text
  import Seqs
  import Sorting

  /** A catalogue product; a missing description or image is "", a missing product type None. */
  datatype Product = Product(
    id: string, name: string, description: string, category: string, image: string,
    sellPrice: int, stock: int, isActive: bool, productType: Option<string>)

  /** The customer's filter choices; "Alle" means any category or product type. */
  datatype Filters = Filters(
    category: string, productType: string, priceLow: int, priceHigh: int, query: string, inStockOnly: bool)

  const All := "Alle"
  const RoundingStep := 10000
  const DefaultPriceHigh := 100000

  /** The filters as the page starts: everything, up to the default price bound. */
  const InitialFilters := Filters(All, All, 0, DefaultPriceHigh, "", false)

  /** The search matches the name or a present description, case-insensitively; an empty query matches every product. */
  function MatchesSearch(p: Product, query: string): (matched: bool)
    ensures query == "" ==> matched
    ensures p.description == "" ==> (matched <==> Text.Contains(Text.Lower(p.name), Text.Lower(query)))
  {
    Text.ContainsEmpty(Text.Lower(p.name));
    Text.Contains(Text.Lower(p.name), Text.Lower(query))
    || (p.description != "" && Text.Contains(Text.Lower(p.description), Text.Lower(query)))
  }

  /** The filter's predicate: an inactive product is never kept. */
  predicate Keep(p: Product, f: Filters) {
    && p.isActive
    && (f.category == All || p.category == f.category)
    && (f.productType == All || p.productType == Some(f.productType))
    && f.priceLow <= p.sellPrice <= f.priceHigh
    && MatchesSearch(p, f.query)
    && (!f.inStockOnly || p.stock > 0)
  }

  /** `filteredProducts` before sorting: exactly the products that pass every filter, in order. */
  function FilteredProducts(products: seq<Product>, f: Filters): (r: seq<Product>)
    ensures |r| <= |products|
    ensures forall i :: 0 <= i < |r| ==> r[i] in products && r[i].isActive && Keep(r[i], f)
    ensures forall i :: 0 <= i < |products| && Keep(products[i], f) ==> products[i] in r
    ensures forall x :: multiset(r)[x] == if Keep(x, f) then multiset(products)[x] else 0
  {
    Seqs.FilterMultiset(products, p => Keep(p, f));
    Seqs.Filter(products, p => Keep(p, f))
  }

  /** The filtered list is an order-preserving subsequence of the catalogue. */
  lemma FilteredIsSubseq(products: seq<Product>, f: Filters)
    ensures Seqs.Subseq(FilteredProducts(products, f), products)
  {
    Seqs.FilterIsSubseq(products, p => Keep(p, f));
  }

  /** An empty query matches every product: the search filter then excludes nothing. */
  lemma EmptyQueryMatchesAll(p: Product)
    ensures MatchesSearch(p, "")
  {
    Text.ContainsEmpty(Text.Lower(p.name));
  }

  /** The sort comparator for each choice; any other choice ties every pair. */
  function Compare(sortBy: string, a: Product, b: Product): int {
    match sortBy
    case "price-low" => a.sellPrice - b.sellPrice
    case "price-high" => b.sellPrice - a.sellPrice
    case "name-asc" => Text.LexCompare(a.name, b.name)
    case "name-desc" => Text.LexCompare(b.name, a.name)
    case _ => 0
  }

  function Comparator(sortBy: string): (Product, Product) -> int {
    (a: Product, b: Product) => Compare(sortBy, a, b)
  }

  /** Every choice of comparator orders the products consistently. */
  lemma ComparatorConsistent(sortBy: string)
    ensures Sorting.Consistent(Comparator(sortBy))
  {
    forall a: Product, b: Product
      ensures Compare(sortBy, a, b) <= 0 || Compare(sortBy, b, a) <= 0
    {
      Text.LexCompareFlip(a.name, b.name);
    }
    forall a: Product, b: Product, c: Product | Compare(sortBy, a, b) <= 0 && Compare(sortBy, b, c) <= 0
      ensures Compare(sortBy, a, c) <= 0
    {
      if sortBy == "name-asc" {
        Text.LexCompareTransitive(a.name, b.name, c.name);
      } else if sortBy == "name-desc" {
        Text.LexCompareTransitive(c.name, b.name, a.name);
      }
    }
  }

  /** What the page lists: the filtered products, sorted on a copy by the chosen comparator. */
  function VisibleProducts(products: seq<Product>, f: Filters, sortBy: string): (r: seq<Product>)
    ensures multiset(r) == multiset(FilteredProducts(products, f))
  {
    Sorting.Sort(FilteredProducts(products, f), Comparator(sortBy))
  }

  /** The listed products are ordered by the chosen comparator. */
  lemma VisibleSorted(products: seq<Product>, f: Filters, sortBy: string)
    ensures forall i, j :: 0 <= i < j < |VisibleProducts(products, f, sortBy)| ==>
              Compare(sortBy, VisibleProducts(products, f, sortBy)[i], VisibleProducts(products, f, sortBy)[j]) <= 0
  {
    ComparatorConsistent(sortBy);
    Sorting.SortSorted(FilteredProducts(products, f), Comparator(sortBy));
  }

  /** "price-low" lists prices in non-decreasing order. */
  lemma PriceLowAscending(products: seq<Product>, f: Filters)
    ensures forall i, j :: 0 <= i < j < |VisibleProducts(products, f, "price-low")| ==>
              VisibleProducts(products, f, "price-low")[i].sellPrice <= VisibleProducts(products, f, "price-low")[j].sellPrice
  {
    VisibleSorted(products, f, "price-low");
  }

  /** "price-high" lists prices in non-increasing order. */
  lemma PriceHighDescending(products: seq<Product>, f: Filters)
    ensures forall i, j :: 0 <= i < j < |VisibleProducts(products, f, "price-high")| ==>
              VisibleProducts(products, f, "price-high")[i].sellPrice >= VisibleProducts(products, f, "price-high")[j].sellPrice
  {
    VisibleSorted(products, f, "price-high");
  }

  /** "default", and any choice the comparator does not know, keeps the filtered order. */
  lemma UnknownSortKeepsOrder(products: seq<Product>, f: Filters, sortBy: string)
    requires sortBy != "price-low" && sortBy != "price-high" && sortBy != "name-asc" && sortBy != "name-desc"
    ensures VisibleProducts(products, f, sortBy) == FilteredProducts(products, f)
  {
    var s := FilteredProducts(products, f);
    forall i, j | 0 <= i < |s| && 0 <= j < |s|
      ensures Comparator(sortBy)(s[i], s[j]) <= 0
    {
      UnknownChoiceTies(sortBy, s[i], s[j]);
    }
    Sorting.SortAllTiesKeepsOrder(s, Comparator(sortBy));
  }

  lemma UnknownChoiceTies(sortBy: string, a: Product, b: Product)
    requires sortBy != "price-low" && sortBy != "price-high" && sortBy != "name-asc" && sortBy != "name-desc"
    ensures Compare(sortBy, a, b) == 0
  {
  }

  // ----------------------------------------------------------------------------------
  // The category list.

  /** The distinct categories of the catalogue, each listed once. */
  function DistinctCategories(products: seq<Product>): (cats: seq<string>)
    ensures forall i, j :: 0 <= i < j < |cats| ==> cats[i] != cats[j]
    ensures forall i :: 0 <= i < |products| ==> products[i].category in cats
  {
    if products == [] then []
    else
      var init := products[..|products| - 1];
      var last := products[|products| - 1];
      var d := DistinctCategories(init);
      assert forall i :: 0 <= i < |init| ==> init[i] == products[i];
      if last.category in d then d else d + [last.category]
  }

  /** Every listed category is the category of some product. */
  lemma {:induction false} DistinctCategoriesOccur(products: seq<Product>, c: string)
    requires c in DistinctCategories(products)
    ensures exists k :: 0 <= k < |products| && products[k].category == c
  {
    var init := products[..|products| - 1];
    if c in DistinctCategories(init) {
      DistinctCategoriesOccur(init, c);
      var k :| 0 <= k < |init| && init[k].category == c;
      assert products[k] == init[k];
    } else {
      assert products[|products| - 1].category == c;
    }
  }

  function InCategory(c: string): Product -> bool {
    (p: Product) => p.category == c
  }

  datatype CategoryCount = CategoryCount(name: string, count: nat)

  /** One entry per given category, with the number of products in it. */
  function CategoryCounts(products: seq<Product>, cats: seq<string>): (entries: seq<CategoryCount>)
    ensures |entries| == |cats|
    ensures forall i :: 0 <= i < |cats| ==>
              entries[i] == CategoryCount(cats[i], Seqs.Count(products, InCategory(cats[i])))
  {
    if cats == [] then []
    else [CategoryCount(cats[0], Seqs.Count(products, InCategory(cats[0])))] + CategoryCounts(products, cats[1..])
  }

  /** The list beside the catalogue: "Alle" with every product, then each category with its count. */
  function CategoryList(products: seq<Product>): (entries: seq<CategoryCount>)
    ensures |entries| >= 1 && entries[0] == CategoryCount(All, |products|)
    ensures forall i, j :: 1 <= i < j < |entries| ==> entries[i].name != entries[j].name
    ensures forall i :: 1 <= i < |entries| ==> entries[i].count >= 1
    ensures entries[1..] == CategoryCounts(products, DistinctCategories(products))
  {
    var cats := DistinctCategories(products);
    var counts := CategoryCounts(products, cats);
    forall i | 0 <= i < |cats|
      ensures Seqs.Count(products, InCategory(cats[i])) >= 1
    {
      DistinctCategoriesOccur(products, cats[i]);
      var k :| 0 <= k < |products| && products[k].category == cats[i];
      assert InCategory(cats[i])(products[k]);
    }
    [CategoryCount(All, |products|)] + counts
  }

  function Total(entries: seq<CategoryCount>): nat {
    if entries == [] then 0 else entries[0].count + Total(entries[1..])
  }

  /** How often `c` occurs in `cats`. */
  function Occurrences(cats: seq<string>, c: string): nat {
    if cats == [] then 0 else (if cats[0] == c then 1 else 0) + Occurrences(cats[1..], c)
  }

  lemma {:induction false} OccurrencesDistinct(cats: seq<string>, c: string)
    requires c !in cats || forall i, j :: 0 <= i < j < |cats| ==> cats[i] != cats[j]
    ensures Occurrences(cats, c) == if c in cats then 1 else 0
  {
    if cats != [] {
      OccurrencesDistinct(cats[1..], c);
      if cats[0] == c {
        assert c !in cats[1..] by {
          forall j | 0 <= j < |cats[1..]| ensures cats[1..][j] != c {
            assert cats[1..][j] == cats[j + 1];
          }
        }
      }
    }
  }

  /** One more product adds one to the count of its own category and nothing to the others. */
  lemma CountSnoc(products: seq<Product>, p: Product, c: string)
    ensures Seqs.Count(products + [p], InCategory(c))
            == Seqs.Count(products, InCategory(c)) + (if p.category == c then 1 else 0)
  {
    Seqs.FilterAppend(products, [p], InCategory(c));
    assert Seqs.Filter([p], InCategory(c)) == (if p.category == c then [p] else []);
  }

  lemma {:induction false} TotalSnocProduct(products: seq<Product>, p: Product, cats: seq<string>)
    ensures Total(CategoryCounts(products + [p], cats))
            == Total(CategoryCounts(products, cats)) + Occurrences(cats, p.category)
  {
    if cats != [] {
      TotalSnocProduct(products, p, cats[1..]);
      CountSnoc(products, p, cats[0]);
    }
  }

  lemma {:induction false} TotalSnocCategory(products: seq<Product>, cats: seq<string>, c: string)
    ensures Total(CategoryCounts(products, cats + [c]))
            == Total(CategoryCounts(products, cats)) + Seqs.Count(products, InCategory(c))
  {
    if cats == [] {
      assert cats + [c] == [c];
    } else {
      assert (cats + [c])[1..] == cats[1..] + [c];
      TotalSnocCategory(products, cats[1..], c);
    }
  }

  /** A category no product of the catalogue has counts 0. */
  lemma CountOfAbsentCategory(products: seq<Product>, cats: seq<string>, c: string)
    requires forall i :: 0 <= i < |products| ==> products[i].category in cats
    requires c !in cats
    ensures Seqs.Count(products, InCategory(c)) == 0
  {
    forall i | 0 <= i < |products| ensures !InCategory(c)(products[i]) {
      assert products[i].category in cats;
    }
    Seqs.FilterNone(products, InCategory(c));
  }

  lemma DistinctSnoc(init: seq<Product>, p: Product)
    ensures DistinctCategories(init + [p])
            == if p.category in DistinctCategories(init) then DistinctCategories(init)
               else DistinctCategories(init) + [p.category]
  {
    assert (init + [p])[..|init + [p]| - 1] == init;
  }

  /** Over the distinct categories, the counts add up to the number of products. */
  lemma {:induction false} DistinctCountsSum(products: seq<Product>)
    ensures Total(CategoryCounts(products, DistinctCategories(products))) == |products|
    decreases |products|
  {
    if products != [] {
      var init := products[..|products| - 1];
      var p := products[|products| - 1];
      assert products == init + [p];
      DistinctCountsSum(init);
      SnocCountsSum(init, p);
    }
  }

  lemma SnocCountsSum(init: seq<Product>, p: Product)
    ensures Total(CategoryCounts(init + [p], DistinctCategories(init + [p])))
            == Total(CategoryCounts(init, DistinctCategories(init))) + 1
  {
    if p.category in DistinctCategories(init) {
      SnocKnownCategory(init, p);
    } else {
      SnocNewCategory(init, p);
    }
  }

  lemma SnocKnownCategory(init: seq<Product>, p: Product)
    requires p.category in DistinctCategories(init)
    ensures Total(CategoryCounts(init + [p], DistinctCategories(init + [p])))
            == Total(CategoryCounts(init, DistinctCategories(init))) + 1
  {
    var d := DistinctCategories(init);
    DistinctSnoc(init, p);
    OccurrencesDistinct(d, p.category);
    TotalSnocProduct(init, p, d);
  }

  lemma SnocNewCategory(init: seq<Product>, p: Product)
    requires p.category !in DistinctCategories(init)
    ensures Total(CategoryCounts(init + [p], DistinctCategories(init + [p])))
            == Total(CategoryCounts(init, DistinctCategories(init))) + 1
  {
    var d := DistinctCategories(init);
    DistinctSnoc(init, p);
    OccurrencesDistinct(d, p.category);
    TotalSnocProduct(init, p, d);
    TotalSnocCategory(init + [p], d, p.category);
    CountSnoc(init, p, p.category);
    CountOfAbsentCategory(init, d, p.category);
  }

  /** The category counts (after "Alle") add up to the number of products. */
  lemma CategoryCountsSumToAll(products: seq<Product>)
    ensures Total(CategoryList(products)[1..]) == |products|
  {
    assert CategoryList(products)[1..] == CategoryCounts(products, DistinctCategories(products));
    DistinctCountsSum(products);
  }

  // ----------------------------------------------------------------------------------
  // The price slider and the add-to-cart button.

  /** `Math.ceil(a / b)` for a positive `b`. */
  function CeilDiv(a: int, b: int): (q: int)
    requires b > 0
    ensures q * b >= a && (q - 1) * b < a
  {
    -((-a) / b)
  }

  function MaxPrice(products: seq<Product>): (m: int)
    requires products != []
    ensures forall i :: 0 <= i < |products| ==> products[i].sellPrice <= m
    ensures exists i :: 0 <= i < |products| && products[i].sellPrice == m
  {
    if |products| == 1 then products[0].sellPrice
    else
      var rest := MaxPrice(products[1..]);
      assert forall i :: 1 <= i < |products| ==> products[i] == products[1..][i - 1];
      if products[0].sellPrice >= rest then products[0].sellPrice else rest
  }

  /**
   * The upper price bound set once the catalogue is loaded: the highest price rounded up
   * to the next 100 CHF. It is at least every price and less than 100 CHF above the highest.
   */
  function PriceCeiling(products: seq<Product>): (high: int)
    requires products != []
    ensures high % RoundingStep == 0
    ensures forall i :: 0 <= i < |products| ==> products[i].sellPrice <= high
    ensures high - RoundingStep < MaxPrice(products)
  {
    CeilDiv(MaxPrice(products), RoundingStep) * RoundingStep
  }

  /** The price range after a load: [0, ceiling] for a non-empty catalogue, unchanged otherwise. */
  function PriceRangeAfterLoad(products: seq<Product>, f: Filters): (g: Filters)
    ensures products == [] ==> g == f
    ensures products != [] ==> g == f.(priceLow := 0, priceHigh := PriceCeiling(products))
  {
    if |products| > 0 then f.(priceLow := 0, priceHigh := PriceCeiling(products)) else f
  }

  /**
   * After a load the price filter excludes no active product of the catalogue on
   * price grounds (the prices being non-negative).
   */
  lemma LoadedRangeCoversCatalogue(products: seq<Product>, f: Filters, i: int)
    requires products != [] && 0 <= i < |products| && products[i].sellPrice >= 0
    ensures PriceRangeAfterLoad(products, f).priceLow <= products[i].sellPrice <= PriceRangeAfterLoad(products, f).priceHigh
  {
  }

  /** The slider's maximum: the highest price, or 1000 CHF for an empty catalogue. */
  function SliderMax(products: seq<Product>): (m: int)
    ensures products == [] ==> m == DefaultPriceHigh
    ensures forall i :: 0 <= i < |products| ==> products[i].sellPrice <= m
    ensures products != [] ==> exists i :: 0 <= i < |products| && products[i].sellPrice == m
  {
    if |products| > 0 then MaxPrice(products) else DefaultPriceHigh
  }

  datatype NewCartItem = NewCartItem(id: string, name: string, price: int, image: string)

  /** The add-to-cart button adds only a product that has an image, at its selling price. */
  function AddToCartRequest(p: Product): (r: Option<NewCartItem>)
    ensures r.Some? <==> p.image != ""
    ensures r.Some? ==> r.value == NewCartItem(p.id, p.name, p.sellPrice, p.image)
  {
    if p.image != "" then Some(NewCartItem(p.id, p.name, p.sellPrice, p.image)) else None
  }
}
