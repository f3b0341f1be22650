/** The in-memory catalog (`MemStorage`) and its query operations. After its
    demo data is loaded the catalog is only read, so it is a value here: the
    products in insertion order (ascending id, as `Map` iterates them), and
    per-product retailer lists, review lists and video reviews. */
module Storage {
  import opened Common
  import opened Ranking
  import opened Schema

  datatype MemStorage = MemStorage(
    products: seq<Product>,
    productRetailers: map<int, seq<ProductRetailer>>,
    reviews: map<int, seq<Review>>,
    videoReviews: map<int, VideoReview>)
  {
    /** Product ids are keys of a `Map`: each appears once. */
    ghost predicate Valid() {
      forall i, j :: 0 <= i < j < |products| ==> products[i].id != products[j].id
    }
  }

  const FeaturedDefaultLimit: int := 8
  const SimilarDefaultLimit: int := 5
  const DefaultPage: int := 1
  const DefaultPageSize: int := 20
  const MaxSuggestions: int := 5
  const MinQueryLength: nat := 2

  // ---------------------------------------------------------------------
  // Lookups
  // ---------------------------------------------------------------------

  /** `products.get(id)`. */
  function Find(ps: seq<Product>, id: int): (r: Option<Product>)
    ensures r.Some? ==> r.value in ps && r.value.id == id
    ensures r.None? ==> forall p :: p in ps ==> p.id != id
  {
    if ps == [] then None else if ps[0].id == id then Some(ps[0]) else Find(ps[1..], id)
  }

  /** In a catalog with distinct ids, `get` finds exactly the stored product with that id. */
  lemma FindStored(st: MemStorage, p: Product)
    requires st.Valid() && p in st.products
    ensures Find(st.products, p.id) == Some(p)
  {
    var r := Find(st.products, p.id);
    var i :| 0 <= i < |st.products| && st.products[i] == p;
    var j :| 0 <= j < |st.products| && st.products[j] == r.value;
  }

  function GetProduct(st: MemStorage, id: int): Option<Product> {
    Find(st.products, id)
  }

  /** `ids.map(id => products.get(id)).filter(p => !!p)`. */
  function GetProducts(st: MemStorage, ids: seq<int>): (r: seq<Product>)
    ensures |r| <= |ids|
  {
    if ids == [] then []
    else
      var found := Find(st.products, ids[|ids| - 1]);
      GetProducts(st, ids[..|ids| - 1]) + (if found.Some? then [found.value] else [])
  }

  /** The result holds the stored product of each requested id that is
      stored, in the order of the ids, and nothing for unknown ids. */
  lemma {:induction false} GetProductsSpec(st: MemStorage, ids: seq<int>)
    ensures forall p :: p in GetProducts(st, ids) ==> p in st.products && p.id in ids
    ensures forall i :: 0 <= i < |ids| && Find(st.products, ids[i]).Some? ==>
      Find(st.products, ids[i]).value in GetProducts(st, ids)
    ensures (forall i :: 0 <= i < |ids| ==> Find(st.products, ids[i]).Some?) ==> |GetProducts(st, ids)| == |ids|
    ensures (forall i :: 0 <= i < |ids| ==> Find(st.products, ids[i]).None?) ==> GetProducts(st, ids) == []
  {
    if ids != [] {
      var init := ids[..|ids| - 1];
      GetProductsSpec(st, init);
      assert forall i :: 0 <= i < |init| ==> init[i] == ids[i];
    }
  }

  /** Order of the ids: looking up a list of ids is looking up its parts in
      turn, and one id gives its stored product, or nothing if unknown. */
  lemma {:induction false} GetProductsAppend(st: MemStorage, a: seq<int>, b: seq<int>, id: int)
    ensures GetProducts(st, a + b) == GetProducts(st, a) + GetProducts(st, b)
    ensures GetProducts(st, [id]) == (if Find(st.products, id).Some? then [Find(st.products, id).value] else [])
  {
    if b != [] {
      GetProductsAppend(st, a, b[..|b| - 1], id);
      assert (a + b)[..|a + b| - 1] == a + b[..|b| - 1];
    } else {
      assert a + b == a;
    }
    assert [id][..0] == [];
  }

  /** `productRetailers.get(id) || []`. */
  function GetProductRetailers(st: MemStorage, productId: int): (r: seq<ProductRetailer>)
    ensures productId !in st.productRetailers ==> r == []
    ensures productId in st.productRetailers ==> r == st.productRetailers[productId]
  {
    if productId in st.productRetailers then st.productRetailers[productId] else []
  }

  /** `reviews.get(id) || []`. */
  function GetProductReviews(st: MemStorage, productId: int): (r: seq<Review>)
    ensures productId !in st.reviews ==> r == []
    ensures productId in st.reviews ==> r == st.reviews[productId]
  {
    if productId in st.reviews then st.reviews[productId] else []
  }

  /** `videoReviews.get(id)`. */
  function GetProductVideoReview(st: MemStorage, productId: int): (r: Option<VideoReview>)
    ensures productId !in st.videoReviews <==> r.None?
    ensures productId in st.videoReviews ==> r == Some(st.videoReviews[productId])
  {
    if productId in st.videoReviews then Some(st.videoReviews[productId]) else None
  }

  // ---------------------------------------------------------------------
  // Featured products
  // ---------------------------------------------------------------------

  /** `product.rating || 0`. */
  function RatingOrZero(p: Product): real {
    if p.rating.Some? then p.rating.value else 0.0
  }

  /** `getFeaturedProducts`: all products ranked by rating, best first, cut to `limit`. */
  function GetFeaturedProducts(st: MemStorage, limit: Option<int>): seq<Product> {
    Top(ByScore(st.products, RatingOrZero), limit.GetOr(FeaturedDefaultLimit))
  }

  /** At most `limit` stored products, best rated first (a missing rating
      counting as 0), and none left out rated above one kept. */
  lemma FeaturedSpec(st: MemStorage, limit: Option<int>)
    ensures 0 <= limit.GetOr(FeaturedDefaultLimit) ==>
      |GetFeaturedProducts(st, limit)| == Min(limit.GetOr(FeaturedDefaultLimit), |st.products|)
    ensures forall p :: p in GetFeaturedProducts(st, limit) ==> p in st.products
    ensures forall i, j :: 0 <= i < j < |GetFeaturedProducts(st, limit)| ==>
      RatingOrZero(GetFeaturedProducts(st, limit)[i]) >= RatingOrZero(GetFeaturedProducts(st, limit)[j])
    ensures forall p, q :: p in GetFeaturedProducts(st, limit) && q in st.products && q !in GetFeaturedProducts(st, limit) ==>
      RatingOrZero(p) >= RatingOrZero(q)
  {
    TopByScore(st.products, RatingOrZero, limit.GetOr(FeaturedDefaultLimit));
  }

  // ---------------------------------------------------------------------
  // Search
  // ---------------------------------------------------------------------

  /** A string filter is active when given and non-empty (JavaScript truthiness). */
  predicate Active(s: Option<string>) {
    s.Some? && s.value != ""
  }

  predicate MatchesQuery(p: Product, query: string) {
    IncludesIgnoringCase(p.name, query) || IncludesIgnoringCase(p.description, query) || IncludesIgnoringCase(p.brand, query)
  }

  /** The filter of `searchProducts`: every active condition holds. */
  predicate MatchesFilters(p: Product, params: ProductSearch) {
    && (Active(params.query) ==> MatchesQuery(p, params.query.value))
    && (Active(params.category) ==> p.category == params.category.value)
    && (params.minPrice.Some? ==> p.price >= params.minPrice.value)
    && (params.maxPrice.Some? ==> p.price <= params.maxPrice.value)
    && (Active(params.brand) ==> p.brand == params.brand.value)
    && (params.rating.Some? ==> RatingOrZero(p) >= params.rating.value)
    && (params.inStock.Some? ==> p.inStock == params.inStock.value)
  }

  function FilterTest(params: ProductSearch): Product -> bool {
    p => MatchesFilters(p, params)
  }

  /** An extended real: `Math.min()` of nothing is +Infinity and `Math.max()` of nothing is -Infinity. */
  datatype Extended = Finite(value: real) | PosInfinity | NegInfinity

  function MinPrice(ps: seq<Product>): (r: Extended)
    ensures ps == [] <==> r == PosInfinity
    ensures r.Finite? ==> (exists p :: p in ps && p.price == r.value) && forall p :: p in ps ==> r.value <= p.price
  {
    if ps == [] then PosInfinity
    else
      var rest := MinPrice(ps[..|ps| - 1]);
      var x := ps[|ps| - 1].price;
      assert forall p :: p in ps ==> p in ps[..|ps| - 1] || p == ps[|ps| - 1];
      if rest.Finite? && rest.value <= x then rest else Finite(x)
  }

  function MaxPrice(ps: seq<Product>): (r: Extended)
    ensures ps == [] <==> r == NegInfinity
    ensures r.Finite? ==> (exists p :: p in ps && p.price == r.value) && forall p :: p in ps ==> p.price <= r.value
  {
    if ps == [] then NegInfinity
    else
      var rest := MaxPrice(ps[..|ps| - 1]);
      var x := ps[|ps| - 1].price;
      assert forall p :: p in ps ==> p in ps[..|ps| - 1] || p == ps[|ps| - 1];
      if rest.Finite? && rest.value >= x then rest else Finite(x)
  }

  function Brands(ps: seq<Product>): seq<string> {
    seq(|ps|, i requires 0 <= i < |ps| => ps[i].brand)
  }

  datatype SearchResult = SearchResult(products: seq<Product>, total: nat, brands: seq<string>, minPrice: Extended, maxPrice: Extended)

  /** `params.page || 1` and `params.limit || 20`. */
  function PageOf(params: ProductSearch): int {
    if params.page.Some? && params.page.value != 0 then params.page.value else DefaultPage
  }

  function PageSizeOf(params: ProductSearch): int {
    if params.limit.Some? && params.limit.value != 0 then params.limit.value else DefaultPageSize
  }

  /** `(page - 1) * limit`: where the requested page starts. */
  function Offset(params: ProductSearch): (o: int)
    ensures 1 <= PageOf(params) && 1 <= PageSizeOf(params) ==> 0 <= o
  {
    NonNegativeIntProduct(PageOf(params) - 1, PageSizeOf(params));
    (PageOf(params) - 1) * PageSizeOf(params)
  }

  /** `searchProducts`: filter, count, facets over the whole catalog, then the requested page. */
  function SearchProducts(st: MemStorage, params: ProductSearch): SearchResult {
    var filtered := Filter(st.products, FilterTest(params));
    var offset := Offset(params);
    SearchResult(
      Slice(filtered, offset, offset + PageSizeOf(params)),
      |filtered|,
      Dedup(Brands(st.products)),
      MinPrice(st.products),
      MaxPrice(st.products))
  }

  /** Every product on the page is stored and passes every active filter,
      every stored product passing them is among the matches, and `total`
      counts all matches, not just the page. */
  lemma SearchSpec(st: MemStorage, params: ProductSearch)
    ensures forall p :: p in SearchProducts(st, params).products ==> p in st.products && MatchesFilters(p, params)
    ensures SearchProducts(st, params).total == |Filter(st.products, FilterTest(params))|
    ensures forall p :: p in st.products && MatchesFilters(p, params) ==> p in Filter(st.products, FilterTest(params))
  {
    var filtered := Filter(st.products, FilterTest(params));
    var r := SearchProducts(st, params).products;
    forall p | p in r
      ensures p in st.products && MatchesFilters(p, params)
    {
      assert p in filtered;
      FilterMembership(st.products, FilterTest(params), p);
    }
    forall p | p in st.products && MatchesFilters(p, params)
      ensures p in filtered
    {
      FilterMembership(st.products, FilterTest(params), p);
    }
  }

  /** For a positive page and page size, the page holds the matches from
      position `(page - 1) * size` on, as many as fit in one page. */
  lemma SearchPage(st: MemStorage, params: ProductSearch)
    requires 1 <= PageOf(params) && 1 <= PageSizeOf(params)
    ensures var filtered, offset, size := Filter(st.products, FilterTest(params)), Offset(params), PageSizeOf(params);
      && |SearchProducts(st, params).products| == (if offset >= |filtered| then 0 else Min(size, |filtered| - offset))
      && forall k :: 0 <= k < |SearchProducts(st, params).products| ==>
           SearchProducts(st, params).products[k] == filtered[offset + k]
  {
  }

  /** Search with no filters matches the whole catalog: filters that are
      missing or empty impose nothing. */
  lemma NoFiltersMatchAll(st: MemStorage, p: Product)
    ensures MatchesFilters(p, NoFilters)
    ensures MatchesFilters(p, NoFilters.(query := Some(""), category := Some(""), brand := Some("")))
  {
  }

  /** The facets describe the whole catalog whatever the filters: each
      stored brand once, in order of first appearance, and the lowest and
      highest stored price. */
  lemma SearchFacets(st: MemStorage, params: ProductSearch, other: ProductSearch)
    ensures NoDup(SearchProducts(st, params).brands)
    ensures forall b :: b in SearchProducts(st, params).brands <==> exists p :: p in st.products && p.brand == b
    ensures SearchProducts(st, params).brands == SearchProducts(st, other).brands
    ensures SearchProducts(st, params).minPrice == SearchProducts(st, other).minPrice
    ensures SearchProducts(st, params).maxPrice == SearchProducts(st, other).maxPrice
  {
    var bs := Brands(st.products);
    DedupSpec(bs);
    forall b
      ensures b in bs <==> exists p :: p in st.products && p.brand == b
    {
      if b in bs {
        var i :| 0 <= i < |bs| && bs[i] == b;
        assert st.products[i] in st.products;
      }
      if exists p :: p in st.products && p.brand == b {
        var p :| p in st.products && p.brand == b;
        var i :| 0 <= i < |st.products| && st.products[i] == p;
        assert bs[i] == b;
      }
    }
  }

  // ---------------------------------------------------------------------
  // Similar products
  // ---------------------------------------------------------------------

  /** Same brand as the reference ranks first; within a group, the smaller
      the price difference the higher. */
  function SimilarityKey(ref: Product): Product -> Key {
    (p: Product) => Key(if p.brand == ref.brand then 1 else 0, -AbsReal(p.price - ref.price))
  }

  predicate IsCandidate(p: Product, ref: Product) {
    p.id != ref.id && p.category == ref.category
  }

  function CandidateOf(ref: Product): Product -> bool {
    p => IsCandidate(p, ref)
  }

  /** `getSimilarProducts`: the other products of the same category, same
      brand first, then by closeness in price, cut to `limit`. */
  function GetSimilarProducts(st: MemStorage, productId: int, limit: Option<int>): seq<Product> {
    match Find(st.products, productId)
    case None => []
    case Some(ref) =>
      Top(Keyed(Filter(st.products, CandidateOf(ref)), SimilarityKey(ref)), limit.GetOr(SimilarDefaultLimit))
  }

  /** An unknown product has no similar products. Otherwise each result is
      another stored product of the same category, and there are `limit` of
      them, or all candidates when fewer. */
  lemma SimilarSpec(st: MemStorage, productId: int, limit: Option<int>)
    ensures Find(st.products, productId).None? ==> GetSimilarProducts(st, productId, limit) == []
    ensures Find(st.products, productId).Some? ==>
      var ref, r := Find(st.products, productId).value, GetSimilarProducts(st, productId, limit);
      && (0 <= limit.GetOr(SimilarDefaultLimit) ==>
            |r| == Min(limit.GetOr(SimilarDefaultLimit), |Filter(st.products, CandidateOf(ref))|))
      && (forall p :: p in r ==> p in st.products && p.id != productId && p.category == ref.category)
  {
    if Find(st.products, productId).Some? {
      var ref := Find(st.products, productId).value;
      var cands := Filter(st.products, CandidateOf(ref));
      var n := limit.GetOr(SimilarDefaultLimit);
      TopByKey(cands, SimilarityKey(ref), n);
      forall p | p in GetSimilarProducts(st, productId, limit)
        ensures p in st.products && p.id != productId && p.category == ref.category
      {
        FilterMembership(st.products, CandidateOf(ref), p);
      }
    }
  }

  /** Same-brand products come before the others, within each group the
      price difference never decreases, and no candidate left out ranks
      ahead of one kept. */
  lemma SimilarOrder(st: MemStorage, productId: int, limit: Option<int>)
    requires Find(st.products, productId).Some?
    ensures var ref, r := Find(st.products, productId).value, GetSimilarProducts(st, productId, limit);
      && (forall i, j :: 0 <= i < j < |r| && r[j].brand == ref.brand ==> r[i].brand == ref.brand)
      && (forall i, j :: 0 <= i < j < |r| && (r[i].brand == ref.brand <==> r[j].brand == ref.brand) ==>
            AbsReal(r[i].price - ref.price) <= AbsReal(r[j].price - ref.price))
      && (forall p, q :: p in r && q in st.products && IsCandidate(q, ref) && q !in r ==>
            AtLeast(SimilarityKey(ref)(p), SimilarityKey(ref)(q)))
  {
    var ref := Find(st.products, productId).value;
    var cands := Filter(st.products, CandidateOf(ref));
    var k := SimilarityKey(ref);
    TopByKey(cands, k, limit.GetOr(SimilarDefaultLimit));
    var r := GetSimilarProducts(st, productId, limit);
    forall i, j | 0 <= i < j < |r|
      ensures AtLeast(k(r[i]), k(r[j]))
    {
    }
    forall q | q in st.products && IsCandidate(q, ref)
      ensures q in cands
    {
      FilterMembership(st.products, CandidateOf(ref), q);
    }
  }

  // ---------------------------------------------------------------------
  // Search suggestions
  // ---------------------------------------------------------------------

  predicate NameMatches(p: Product, q: string) {
    Includes(Lower(p.name), q)
  }

  predicate GroupMatches(p: Product, q: string) {
    Includes(Lower(p.brand), q) || Includes(Lower(p.category), q)
  }

  function BrandCategory(p: Product): string {
    p.brand + " " + p.category
  }

  /** The suggestions one product adds, in the order it adds them; q is already lower-case. */
  function SuggestionsOf(p: Product, q: string): seq<string> {
    (if NameMatches(p, q) then [p.name] else []) + (if GroupMatches(p, q) then [BrandCategory(p)] else [])
  }

  function Candidates(ps: seq<Product>, q: string): seq<string> {
    if ps == [] then [] else Candidates(ps[..|ps| - 1], q) + SuggestionsOf(ps[|ps| - 1], q)
  }

  function MatchingTest(q: string): Product -> bool {
    p => NameMatches(p, q) || GroupMatches(p, q)
  }

  /** Filtering out products that match nothing first changes no candidate. */
  lemma {:induction false} CandidatesOfMatching(ps: seq<Product>, q: string)
    ensures Candidates(Filter(ps, MatchingTest(q)), q) == Candidates(ps, q)
  {
    if ps != [] {
      var init, last := ps[..|ps| - 1], ps[|ps| - 1];
      CandidatesOfMatching(init, q);
      var f := Filter(init, MatchingTest(q));
      if MatchingTest(q)(last) {
        assert Filter(ps, MatchingTest(q)) == f + [last];
        assert (f + [last])[..|f + [last]| - 1] == f;
      } else {
        assert !NameMatches(last, q) && !GroupMatches(last, q);
        assert SuggestionsOf(last, q) == [];
        calc {
          Candidates(Filter(ps, MatchingTest(q)), q);
          { assert Filter(ps, MatchingTest(q)) == f + []; assert f + [] == f; }
          Candidates(f, q);
          Candidates(init, q);
          Candidates(init, q) + SuggestionsOf(last, q);
          Candidates(ps, q);
        }
      }
    }
  }

  lemma DedupSnoc(s: seq<string>, x: string)
    ensures Dedup(s + [x]) == Add(Dedup(s), x)
  {
    assert (s + [x])[..|s + [x]| - 1] == s;
  }

  /** One product's additions to the suggestion set, in the order the loop makes them. */
  lemma DedupStep(before: seq<string>, p: Product, q: string)
    ensures var named := if NameMatches(p, q) then Add(Dedup(before), p.name) else Dedup(before);
      Dedup(before + SuggestionsOf(p, q)) == if GroupMatches(p, q) then Add(named, BrandCategory(p)) else named
  {
    var first := before + (if NameMatches(p, q) then [p.name] else []);
    if NameMatches(p, q) {
      DedupSnoc(before, p.name);
    } else {
      assert first == before;
    }
    if GroupMatches(p, q) {
      DedupSnoc(first, BrandCategory(p));
      assert before + SuggestionsOf(p, q) == first + [BrandCategory(p)];
    } else {
      assert before + SuggestionsOf(p, q) == first;
    }
  }

  /** `getSearchSuggestions`: for a query of at least two characters, the
      names of matching products and "brand category" of products whose
      brand or category matches, each once, in order of first appearance,
      at most five. */
  method GetSearchSuggestions(st: MemStorage, query: string) returns (r: seq<string>)
    ensures |query| < MinQueryLength ==> r == []
    ensures MinQueryLength <= |query| ==> r == Take(Dedup(Candidates(st.products, Lower(query))), MaxSuggestions)
  {
    if |query| < MinQueryLength {
      return [];
    }
    var q := Lower(query);
    var matching := Filter(st.products, MatchingTest(q));
    var suggestions: seq<string> := [];
    var i := 0;
    while i < |matching|
      invariant 0 <= i <= |matching|
      invariant suggestions == Dedup(Candidates(matching[..i], q))
    {
      var p := matching[i];
      assert matching[..i + 1][..i] == matching[..i];
      DedupStep(Candidates(matching[..i], q), p, q);
      if NameMatches(p, q) {
        suggestions := Add(suggestions, p.name);
      }
      if GroupMatches(p, q) {
        suggestions := Add(suggestions, BrandCategory(p));
      }
      i := i + 1;
    }
    assert matching[..i] == matching;
    CandidatesOfMatching(st.products, q);
    r := Take(suggestions, MaxSuggestions);
  }

  /** What the suggestions are: none for a query shorter than two; otherwise
      at most five distinct strings, each the name of a product whose name
      contains the query or the "brand category" of a product whose brand or
      category contains it, ignoring ASCII case. */
  lemma {:induction false} SuggestionsSpec(ps: seq<Product>, q: string)
    ensures |Take(Dedup(Candidates(ps, q)), MaxSuggestions)| <= MaxSuggestions
    ensures NoDup(Take(Dedup(Candidates(ps, q)), MaxSuggestions))
    ensures forall s :: s in Take(Dedup(Candidates(ps, q)), MaxSuggestions) ==>
      exists p :: p in ps && ((s == p.name && NameMatches(p, q)) || (s == BrandCategory(p) && GroupMatches(p, q)))
  {
    var d := Dedup(Candidates(ps, q));
    DedupSpec(Candidates(ps, q));
    var t := Take(d, MaxSuggestions);
    assert forall s :: s in t ==> s in d;
    forall s | s in t
      ensures exists p :: p in ps && ((s == p.name && NameMatches(p, q)) || (s == BrandCategory(p) && GroupMatches(p, q)))
    {
      CandidateSource(ps, q, s);
    }
  }

  lemma {:induction false} CandidateSource(ps: seq<Product>, q: string, s: string)
    requires s in Candidates(ps, q)
    ensures exists p :: p in ps && ((s == p.name && NameMatches(p, q)) || (s == BrandCategory(p) && GroupMatches(p, q)))
  {
    var init, last := ps[..|ps| - 1], ps[|ps| - 1];
    if s in Candidates(init, q) {
      CandidateSource(init, q, s);
      var p :| p in init && ((s == p.name && NameMatches(p, q)) || (s == BrandCategory(p) && GroupMatches(p, q)));
      assert p in ps;
    } else {
      assert s in SuggestionsOf(last, q);
      assert last in ps;
    }
  }
}
