// The catalog page's search, category and price filters, its sort, and the
// query parameters it writes on a category change (pages/Shop.tsx).
module Shop {
  import opened Types

  /** The price range the page starts with, [0, 1000] dollars in cents. */
  const DefaultPriceRange: (int, int) := (0, 100000)

  /** A URL parameter is applied only when present and non-empty (truthy). */
  predicate Truthy(param: Option<string>)
  {
    param.Some? && param.value != ""
  }

  /** The category the page starts with: the `category` parameter or 'All'. */
  function SelectedCategory(categoryParam: Option<string>): string
  {
    if Truthy(categoryParam) then categoryParam.value else "All"
  }

  /** Lower-casing of the ASCII letters; other characters are kept. */
  function LowerChar(c: char): char
  {
    if 'A' <= c <= 'Z' then (c as int + 32) as char else c
  }

  function Lower(s: string): string
  {
    seq(|s|, i requires 0 <= i < |s| => LowerChar(s[i]))
  }

  /** `q` occurs in `s` starting at index `k`. */
  predicate OccursAt(s: string, q: string, k: int)
  {
    0 <= k <= |s| - |q| && s[k..k + |q|] == q
  }

  /** `s` contains `q` as a contiguous substring (`includes`). */
  predicate Includes(s: string, q: string)
  {
    exists k | 0 <= k <= |s| - |q| :: OccursAt(s, q, k)
  }

  /** One stage of the filter pipeline. */
  datatype Stage = MatchesQuery(query: string) | InCategory(category: string) | PriceWithin(lo: int, hi: int)

  predicate Passes(p: Product, stage: Stage)
  {
    match stage
    case MatchesQuery(q) => Includes(Lower(p.name), q) || Includes(Lower(p.description), q) || Includes(Lower(p.category), q)
    case InCategory(c) => p.category == c
    case PriceWithin(lo, hi) => lo <= p.price && p.price <= hi
  }

  /** The products that pass `stage`, in their original order (`filter`). */
  function Keep(ps: seq<Product>, stage: Stage): seq<Product>
  {
    if ps == [] then []
    else if Passes(ps[0], stage) then [ps[0]] + Keep(ps[1..], stage)
    else Keep(ps[1..], stage)
  }

  /** The three filters, applied the way the page applies them. */
  function Filtered(products: seq<Product>, searchParam: Option<string>, category: string, priceRange: (int, int)): seq<Product>
  {
    var afterSearch := if Truthy(searchParam) then Keep(products, MatchesQuery(Lower(searchParam.value))) else products;
    var afterCategory := if category != "All" then Keep(afterSearch, InCategory(category)) else afterSearch;
    Keep(afterCategory, PriceWithin(priceRange.0, priceRange.1))
  }

  /** A product the page shows: it matches the lower-cased query when there
      is one, has the chosen category unless that is 'All', and its price is
      in the inclusive range. */
  predicate Selected(p: Product, searchParam: Option<string>, category: string, priceRange: (int, int))
  {
    && (Truthy(searchParam) ==> Passes(p, MatchesQuery(Lower(searchParam.value))))
    && (category != "All" ==> p.category == category)
    && priceRange.0 <= p.price <= priceRange.1
  }

  /** How often `p` should appear on the page: as often as in the catalog
      when it is selected, never otherwise. */
  function CountIfSelected(products: seq<Product>, searchParam: Option<string>, category: string, priceRange: (int, int), p: Product): nat
  {
    if Selected(p, searchParam, category, priceRange) then multiset(products)[p] else 0
  }

  /** The keys the page sorts by; any other key keeps catalog order. */
  predicate Sorts(sortBy: string)
  {
    sortBy == "price-low" || sortBy == "price-high" || sortBy == "rating"
  }

  /** The comparator as a rank: ascending rank is the order the page shows. */
  function Rank(p: Product, sortBy: string): int
  {
    if sortBy == "price-low" then p.price
    else if sortBy == "price-high" then -p.price
    else if sortBy == "rating" then -p.rating
    else 0
  }

  predicate SortedBy(s: seq<Product>, sortBy: string)
  {
    forall i, j | 0 <= i < j < |s| :: Rank(s[i], sortBy) <= Rank(s[j], sortBy)
  }

  // ---------------------------------------------------------------------
  // Filtering

  /** A stage keeps every copy of the products that pass it and drops every
      copy of the others. */
  lemma {:induction false} KeepCounts(ps: seq<Product>, stage: Stage, p: Product)
    ensures multiset(Keep(ps, stage))[p] == if Passes(p, stage) then multiset(ps)[p] else 0
  {
    if ps != [] {
      assert ps == [ps[0]] + ps[1..];
      KeepCounts(ps[1..], stage, p);
    }
  }

  /** A stage keeps catalog order: it distributes over concatenation. */
  lemma {:induction false} KeepAppend(a: seq<Product>, b: seq<Product>, stage: Stage)
    ensures Keep(a + b, stage) == Keep(a, stage) + Keep(b, stage)
  {
    if a != [] {
      assert (a + b)[0] == a[0];
      assert (a + b)[1..] == a[1..] + b;
      KeepAppend(a[1..], b, stage);
    } else {
      assert a + b == b;
    }
  }

  /** Soundness, completeness and no duplication: a product appears in the
      result exactly as often as in the catalog when it is selected, and
      not at all otherwise. */
  lemma FilteredCounts(products: seq<Product>, searchParam: Option<string>, category: string, priceRange: (int, int), p: Product)
    ensures multiset(Filtered(products, searchParam, category, priceRange))[p]
         == if Selected(p, searchParam, category, priceRange) then multiset(products)[p] else 0
  {
    var afterSearch := if Truthy(searchParam) then Keep(products, MatchesQuery(Lower(searchParam.value))) else products;
    var afterCategory := if category != "All" then Keep(afterSearch, InCategory(category)) else afterSearch;
    if Truthy(searchParam) {
      KeepCounts(products, MatchesQuery(Lower(searchParam.value)), p);
    }
    if category != "All" {
      KeepCounts(afterSearch, InCategory(category), p);
    }
    KeepCounts(afterCategory, PriceWithin(priceRange.0, priceRange.1), p);
  }

  /** The filters keep catalog order. */
  lemma FilteredAppend(a: seq<Product>, b: seq<Product>, searchParam: Option<string>, category: string, priceRange: (int, int))
    ensures Filtered(a + b, searchParam, category, priceRange)
         == Filtered(a, searchParam, category, priceRange) + Filtered(b, searchParam, category, priceRange)
  {
    var sa := if Truthy(searchParam) then Keep(a, MatchesQuery(Lower(searchParam.value))) else a;
    var sb := if Truthy(searchParam) then Keep(b, MatchesQuery(Lower(searchParam.value))) else b;
    if Truthy(searchParam) {
      KeepAppend(a, b, MatchesQuery(Lower(searchParam.value)));
    }
    var ca := if category != "All" then Keep(sa, InCategory(category)) else sa;
    var cb := if category != "All" then Keep(sb, InCategory(category)) else sb;
    if category != "All" {
      KeepAppend(sa, sb, InCategory(category));
    }
    KeepAppend(ca, cb, PriceWithin(priceRange.0, priceRange.1));
  }

  /** The page as it opens: the category comes from its parameter (or is
      'All') and the price range is the default, so a product is shown
      exactly when it is in the catalog, matches the search and the category
      parameter, and costs between 0 and 1000 dollars. */
  lemma InitialFilter(products: seq<Product>, searchParam: Option<string>, categoryParam: Option<string>, p: Product)
    ensures p in Filtered(products, searchParam, SelectedCategory(categoryParam), DefaultPriceRange)
        <==> && p in products
             && (Truthy(searchParam) ==> Passes(p, MatchesQuery(Lower(searchParam.value))))
             && (Truthy(categoryParam) && categoryParam.value != "All" ==> p.category == categoryParam.value)
             && 0 <= p.price <= 100000
  {
    FilteredCounts(products, searchParam, SelectedCategory(categoryParam), DefaultPriceRange, p);
    assert p in products <==> multiset(products)[p] > 0;
  }

  // ---------------------------------------------------------------------
  // Sorting

  /** The in-place `sort` of the page's copy: an insertion sort by rank. */
  method SortInPlace(a: array<Product>, sortBy: string)
    modifies a
    ensures SortedBy(a[..], sortBy)
    ensures multiset(a[..]) == old(multiset(a[..]))
  {
    var i := 0;
    while i < a.Length
      invariant 0 <= i <= a.Length
      invariant SortedBy(a[..i], sortBy)
      invariant multiset(a[..]) == old(multiset(a[..]))
    {
      Insert(a, i, sortBy);
      i := i + 1;
    }
    assert a[..a.Length] == a[..];
  }

  /** Moves `a[i]` left past every element of larger rank, so that the
      sorted prefix `a[..i]` grows to `a[..i + 1]`. */
  method Insert(a: array<Product>, i: int, sortBy: string)
    requires 0 <= i < a.Length
    requires SortedBy(a[..i], sortBy)
    modifies a
    ensures SortedBy(a[..i + 1], sortBy)
    ensures multiset(a[..]) == old(multiset(a[..]))
  {
    var j := i;
    InsertStart(a[..], i, sortBy);
    while j > 0 && Rank(a[j - 1], sortBy) > Rank(a[j], sortBy)
      invariant 0 <= j <= i
      invariant Inserting(a[..], i, j, sortBy)
      invariant multiset(a[..]) == old(multiset(a[..]))
    {
      SwapDown(a, i, j, sortBy);
      j := j - 1;
    }
    InsertDone(a[..], i, j, sortBy);
  }

  /** One step of Insert: swaps `a[j]` with its larger left neighbour. */
  method SwapDown(a: array<Product>, i: int, j: int, sortBy: string)
    requires 0 < j <= i < a.Length && Inserting(a[..], i, j, sortBy)
    requires Rank(a[j - 1], sortBy) > Rank(a[j], sortBy)
    modifies a
    ensures Inserting(a[..], i, j - 1, sortBy)
    ensures multiset(a[..]) == old(multiset(a[..]))
  {
    ghost var s := a[..];
    SwapStep(s, i, j, sortBy);
    a[j - 1], a[j] := a[j], a[j - 1];
    assert a[..] == s[j - 1 := s[j]][j := s[j - 1]];
  }

  /** While `s[j]` moves left: the first `i + 1` elements are in order
      except around position `j`, and its two neighbours are in order. */
  ghost predicate Inserting(s: seq<Product>, i: int, j: int, sortBy: string)
    requires 0 <= j <= i < |s|
  {
    && (forall k, l | 0 <= k < l <= i && l != j && k != j :: Rank(s[k], sortBy) <= Rank(s[l], sortBy))
    && (forall k | j < k <= i :: Rank(s[j], sortBy) < Rank(s[k], sortBy))
  }

  lemma InsertStart(s: seq<Product>, i: int, sortBy: string)
    requires 0 <= i < |s| && SortedBy(s[..i], sortBy)
    ensures Inserting(s, i, i, sortBy)
  {
    forall k, l | 0 <= k < l <= i && l != i && k != i
      ensures Rank(s[k], sortBy) <= Rank(s[l], sortBy)
    {
      assert s[..i][k] == s[k] && s[..i][l] == s[l];
    }
  }

  lemma SwapStep(s: seq<Product>, i: int, j: int, sortBy: string)
    requires 0 < j <= i < |s| && Inserting(s, i, j, sortBy)
    requires Rank(s[j - 1], sortBy) > Rank(s[j], sortBy)
    ensures Inserting(s[j - 1 := s[j]][j := s[j - 1]], i, j - 1, sortBy)
    ensures multiset(s[j - 1 := s[j]][j := s[j - 1]]) == multiset(s)
  {
    var t := s[j - 1 := s[j]][j := s[j - 1]];
    forall k | j - 1 < k <= i ensures Rank(t[j - 1], sortBy) < Rank(t[k], sortBy) {
      if k == j {
      } else {
        assert t[k] == s[k];
      }
    }
  }

  lemma InsertDone(s: seq<Product>, i: int, j: int, sortBy: string)
    requires 0 <= j <= i < |s| && Inserting(s, i, j, sortBy)
    requires j > 0 ==> Rank(s[j - 1], sortBy) <= Rank(s[j], sortBy)
    ensures SortedBy(s[..i + 1], sortBy)
  {
    var prefix := s[..i + 1];
    forall k, l | 0 <= k < l < i + 1 ensures Rank(prefix[k], sortBy) <= Rank(prefix[l], sortBy) {
      if k == j {
      } else if l == j {
        assert Rank(s[k], sortBy) <= Rank(s[j - 1], sortBy) || k == j - 1;
      }
    }
  }

  /** The `filteredProducts` pipeline: the three filters on a copy of the
      catalog, then the sort the key asks for. */
  method FilteredProducts(products: seq<Product>, searchParam: Option<string>, selectedCategory: string,
                          priceRange: (int, int), sortBy: string)
    returns (result: seq<Product>)
    ensures forall p :: multiset(result)[p] == CountIfSelected(products, searchParam, selectedCategory, priceRange, p)
    ensures forall p | p in result :: p in products && Selected(p, searchParam, selectedCategory, priceRange)
    ensures sortBy == "price-low" ==> forall i, j | 0 <= i < j < |result| :: result[i].price <= result[j].price
    ensures sortBy == "price-high" ==> forall i, j | 0 <= i < j < |result| :: result[i].price >= result[j].price
    ensures sortBy == "rating" ==> forall i, j | 0 <= i < j < |result| :: result[i].rating >= result[j].rating
    ensures !Sorts(sortBy) ==> result == Filtered(products, searchParam, selectedCategory, priceRange)
  {
    var r := products;
    if Truthy(searchParam) {
      r := Keep(r, MatchesQuery(Lower(searchParam.value)));
    }
    if selectedCategory != "All" {
      r := Keep(r, InCategory(selectedCategory));
    }
    r := Keep(r, PriceWithin(priceRange.0, priceRange.1));
    assert r == Filtered(products, searchParam, selectedCategory, priceRange);
    if Sorts(sortBy) {
      var a := new Product[|r|](i requires 0 <= i < |r| => r[i]);
      assert a[..] == r;
      SortInPlace(a, sortBy);
      result := a[..];
      assert SortedBy(result, sortBy);
    } else {
      result := r;
    }
    forall p ensures multiset(result)[p] == CountIfSelected(products, searchParam, selectedCategory, priceRange, p) {
      FilteredCounts(products, searchParam, selectedCategory, priceRange, p);
    }
    forall p | p in result ensures p in products && Selected(p, searchParam, selectedCategory, priceRange) {
      assert multiset(result)[p] > 0;
    }
  }

  // ---------------------------------------------------------------------
  // Category change

  /** The parameters `handleCategoryChange` writes: the category unless it is
      'All', and the current search whenever there is one. */
  method CategoryChangeParams(cat: string, searchParam: Option<string>) returns (params: map<string, string>)
    ensures "category" in params <==> cat != "All"
    ensures "category" in params ==> params["category"] == cat
    ensures "search" in params <==> Truthy(searchParam)
    ensures "search" in params ==> params["search"] == searchParam.value
    ensures forall k | k in params :: k == "category" || k == "search"
  {
    params := map["category" := cat];
    if Truthy(searchParam) {
      params := params["search" := searchParam.value];
    }
    if cat == "All" {
      params := params - {"category"};
    }
  }
}
