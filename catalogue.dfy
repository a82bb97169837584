/** The catalogue views' shared logic: the product record, the search and
    price filter, the orderings the sort menu offers, and the stable sort
    that applies them. Both product pages and the related-products strip
    use it. */
module Catalogue {
  import opened Query
  import Text
  import Seqs

  datatype Product = Product(id: string, name: string, description: string, price: real,
                             images: seq<string>, stockStatus: string, rating: Option<real>,
                             reviewCount: Option<int>, category: Option<string>,
                             tags: Option<seq<string>>)

  // ---------------------------------------------------------------------
  // Filtering

  /** `categoryParam ? product.category === categoryParam : true`. */
  predicate MatchesCategory(p: Product, categoryParam: Option<string>) {
    categoryParam.None? || categoryParam.value == "" || p.category == categoryParam
  }

  /** The lower-cased query occurs in the lower-cased name or description. */
  predicate MatchesSearch(p: Product, query: string) {
    Text.Includes(Text.ToLower(p.name), Text.ToLower(query))
    || Text.Includes(Text.ToLower(p.description), Text.ToLower(query))
  }

  predicate MatchesPrice(p: Product, minPrice: real, maxPrice: real) {
    minPrice <= p.price <= maxPrice
  }

  predicate Matches(p: Product, categoryParam: Option<string>, query: string, minPrice: real, maxPrice: real) {
    MatchesCategory(p, categoryParam) && MatchesSearch(p, query) && MatchesPrice(p, minPrice, maxPrice)
  }

  /** The effect's `filter`. */
  function FilterProducts(ps: seq<Product>, categoryParam: Option<string>, query: string,
                          minPrice: real, maxPrice: real): (r: seq<Product>)
    ensures |r| <= |ps|
    ensures forall p :: p in r <==> p in ps && Matches(p, categoryParam, query, minPrice, maxPrice)
  {
    if ps == [] then []
    else (if Matches(ps[0], categoryParam, query, minPrice, maxPrice) then [ps[0]] else [])
         + FilterProducts(ps[1..], categoryParam, query, minPrice, maxPrice)
  }

  /** The search test holds exactly when the lower-cased query occurs at
      some position of the lower-cased name or description. */
  lemma SearchIff(p: Product, query: string)
    ensures MatchesSearch(p, query) <==>
              Text.Occurs(Text.ToLower(p.name), Text.ToLower(query))
              || Text.Occurs(Text.ToLower(p.description), Text.ToLower(query))
  {
    Text.IncludesIff(Text.ToLower(p.name), Text.ToLower(query));
    Text.IncludesIff(Text.ToLower(p.description), Text.ToLower(query));
  }

  /** An empty query excludes nothing. */
  lemma EmptyQueryMatchesAll(p: Product)
    ensures MatchesSearch(p, "")
  {
    Text.IncludesEmpty(Text.ToLower(p.name));
  }

  // ---------------------------------------------------------------------
  // Orderings

  /** `rating || 0`. */
  function Score(p: Product): real {
    if p.rating.Some? then p.rating.value else 0.0
  }

  /** How many of the product's tags (with repetitions) are among `tags`. */
  function TagMatches(p: Product, tags: seq<string>): nat {
    if p.tags.Some? then CountAmong(p.tags.value, tags) else 0
  }

  function CountAmong(ts: seq<string>, tags: seq<string>): (n: nat)
    ensures n <= |ts|
    ensures n > 0 <==> exists t :: t in ts && t in tags
  {
    if ts == [] then 0 else (if ts[0] in tags then 1 else 0) + CountAmong(ts[1..], tags)
  }

  /** Code-unit lexicographic order on names. */
  predicate NameLe(a: string, b: string) {
    if a == [] then true
    else if b == [] then false
    else if a[0] != b[0] then a[0] < b[0]
    else NameLe(a[1..], b[1..])
  }

  lemma {:induction false} NameLeTotal(a: string, b: string)
    ensures NameLe(a, b) || NameLe(b, a)
  {
    if a != [] && b != [] && a[0] == b[0] {
      NameLeTotal(a[1..], b[1..]);
    }
  }

  lemma {:induction false} NameLeTrans(a: string, b: string, c: string)
    requires NameLe(a, b) && NameLe(b, c)
    ensures NameLe(a, c)
  {
    if a != [] && b != [] && c != [] && a[0] == b[0] && b[0] == c[0] {
      NameLeTrans(a[1..], b[1..], c[1..]);
    }
  }

  /** The sort menu's orderings, and the related-products relevance order. */
  datatype Order = PriceLow | PriceHigh | RatingHigh | NameAZ | TagRelevance(tags: seq<string>)

  /** `a` may come before `b`: the comparator's value is at most zero. */
  predicate Le(o: Order, a: Product, b: Product) {
    match o
    case PriceLow => a.price <= b.price
    case PriceHigh => b.price <= a.price
    case RatingHigh => Score(b) <= Score(a)
    case NameAZ => NameLe(a.name, b.name)
    case TagRelevance(tags) => TagMatches(b, tags) <= TagMatches(a, tags)
  }

  lemma LeTotal(o: Order, a: Product, b: Product)
    ensures Le(o, a, b) || Le(o, b, a)
  {
    if o.NameAZ? {
      NameLeTotal(a.name, b.name);
    }
  }

  lemma LeTrans(o: Order, a: Product, b: Product, c: Product)
    requires Le(o, a, b) && Le(o, b, c)
    ensures Le(o, a, c)
  {
    if o.NameAZ? {
      NameLeTrans(a.name, b.name, c.name);
    }
  }

  ghost predicate Sorted(o: Order, s: seq<Product>) {
    forall i, j :: 0 <= i < j < |s| ==> Le(o, s[i], s[j])
  }

  // ---------------------------------------------------------------------
  // The stable sort

  /** Place `x` after every element that may precede it; on a sorted list
      that keeps equal elements in their arrival order. */
  function Insert(o: Order, x: Product, t: seq<Product>): (r: seq<Product>)
    ensures multiset(r) == multiset(t) + multiset{x}
  {
    if t == [] then [x]
    else if Le(o, t[0], x) then
      assert t == [t[0]] + t[1..];
      [t[0]] + Insert(o, x, t[1..])
    else [x] + t
  }

  lemma {:induction false} InsertSorted(o: Order, x: Product, t: seq<Product>)
    requires Sorted(o, t)
    ensures Sorted(o, Insert(o, x, t))
  {
    if t != [] {
      if Le(o, t[0], x) {
        InsertSorted(o, x, t[1..]);
        InsertKeepsBound(o, t[0], x, t[1..]);
        ConsSorted(o, t[0], Insert(o, x, t[1..]));
      } else {
        LeTotal(o, t[0], x);
        forall k | 0 <= k < |t| ensures Le(o, x, t[k]) {
          if k > 0 {
            LeTrans(o, x, t[0], t[k]);
          }
        }
        ConsSorted(o, x, t);
      }
    }
  }

  /** A bound below every element of a sorted list, put in front of it,
      keeps it sorted. */
  lemma ConsSorted(o: Order, a: Product, r: seq<Product>)
    requires Sorted(o, r) && forall k :: 0 <= k < |r| ==> Le(o, a, r[k])
    ensures Sorted(o, [a] + r)
  {
    var whole := [a] + r;
    forall i, j | 0 <= i < j < |whole| ensures Le(o, whole[i], whole[j]) {
      assert whole[j] == r[j - 1];
      if i > 0 {
        assert whole[i] == r[i - 1];
      }
    }
  }

  /** A lower bound of the list and of `x` bounds the list with `x`
      inserted. */
  lemma InsertKeepsBound(o: Order, a: Product, x: Product, rest: seq<Product>)
    requires Le(o, a, x) && Sorted(o, [a] + rest)
    ensures forall k :: 0 <= k < |Insert(o, x, rest)| ==> Le(o, a, Insert(o, x, rest)[k])
  {
    var r := Insert(o, x, rest);
    forall k | 0 <= k < |r| ensures Le(o, a, r[k]) {
      assert r[k] in multiset(r);
      if r[k] != x {
        assert r[k] in multiset(rest);
        var j :| 0 <= j < |rest| && rest[j] == r[k];
        var whole := [a] + rest;
        assert whole[0] == a && whole[j + 1] == rest[j];
        assert Le(o, whole[0], whole[j + 1]);
      }
    }
  }

  /** `Array.prototype.sort` with the comparator of `o`, as a stable
      insertion sort. */
  function Sort(o: Order, s: seq<Product>): (r: seq<Product>)
    ensures multiset(r) == multiset(s)
  {
    if s == [] then []
    else
      assert s == s[..|s| - 1] + [s[|s| - 1]];
      Insert(o, s[|s| - 1], Sort(o, s[..|s| - 1]))
  }

  lemma {:induction false} SortSorted(o: Order, s: seq<Product>)
    ensures Sorted(o, Sort(o, s))
  {
    if s != [] {
      SortSorted(o, s[..|s| - 1]);
      InsertSorted(o, s[|s| - 1], Sort(o, s[..|s| - 1]));
    }
  }

  /** The sort menu's value: anything but the four sort keys (the default,
      "featured") leaves the order alone. */
  function OrderFor(sortBy: string): (r: Option<Order>)
    ensures r == Some(PriceLow) <==> sortBy == "price-low"
    ensures r == Some(PriceHigh) <==> sortBy == "price-high"
    ensures r == Some(RatingHigh) <==> sortBy == "rating"
    ensures r == Some(NameAZ) <==> sortBy == "name"
    ensures r.Some? ==> !r.value.TagRelevance?
  {
    match sortBy
    case "price-low" => Some(PriceLow)
    case "price-high" => Some(PriceHigh)
    case "rating" => Some(RatingHigh)
    case "name" => Some(NameAZ)
    case _ => None
  }

  /** The filtered list after the sort switch. */
  function Arrange(sortBy: string, s: seq<Product>): seq<Product> {
    var o := OrderFor(sortBy);
    if o.Some? then Sort(o.value, s) else s
  }

  /** What the catalogue effect computes from its inputs. */
  function Listing(ps: seq<Product>, categoryParam: Option<string>, query: string,
                   minPrice: real, maxPrice: real, sortBy: string): seq<Product>
  {
    Arrange(sortBy, FilterProducts(ps, categoryParam, query, minPrice, maxPrice))
  }

  /** The listing holds exactly the matching products, each as often as in
      the catalogue; under a sort key it is ordered by that key, and
      otherwise ("featured") it is the filtered list in catalogue order. */
  lemma ListingSpec(ps: seq<Product>, categoryParam: Option<string>, query: string,
                    minPrice: real, maxPrice: real, sortBy: string)
    ensures var f := FilterProducts(ps, categoryParam, query, minPrice, maxPrice);
            var l := Listing(ps, categoryParam, query, minPrice, maxPrice, sortBy);
            && multiset(l) == multiset(f)
            && (forall p :: p in l <==> p in ps && Matches(p, categoryParam, query, minPrice, maxPrice))
            && (OrderFor(sortBy).Some? ==> Sorted(OrderFor(sortBy).value, l))
            && (OrderFor(sortBy).None? ==> l == f)
  {
    var f := FilterProducts(ps, categoryParam, query, minPrice, maxPrice);
    var l := Listing(ps, categoryParam, query, minPrice, maxPrice, sortBy);
    if OrderFor(sortBy).Some? {
      SortSorted(OrderFor(sortBy).value, f);
    }
    forall p ensures p in l <==> p in f {
      assert p in l <==> p in multiset(l);
      assert p in f <==> p in multiset(f);
    }
  }

  /** The filtered list is a subsequence of the catalogue: "featured" keeps
      the original relative order. */
  lemma {:induction false} FilterKeepsOrder(ps: seq<Product>, categoryParam: Option<string>, query: string,
                                            minPrice: real, maxPrice: real)
    ensures Seqs.Subsequence(FilterProducts(ps, categoryParam, query, minPrice, maxPrice), ps)
  {
    if ps != [] {
      FilterKeepsOrder(ps[1..], categoryParam, query, minPrice, maxPrice);
      var rest := FilterProducts(ps[1..], categoryParam, query, minPrice, maxPrice);
      if Matches(ps[0], categoryParam, query, minPrice, maxPrice) {
        assert ([ps[0]] + rest)[1..] == rest;
      } else {
        assert FilterProducts(ps, categoryParam, query, minPrice, maxPrice) == rest;
        Seqs.SubsequenceSkip(rest, ps);
      }
    }
  }

  // ---------------------------------------------------------------------
  // Filter state shared by both product pages

  const DefaultMinPrice: real := 0.0
  const DefaultMaxPrice: real := 10000.0

  /** With the default price range and an empty query, the product page
      lists every product of the category. */
  lemma DefaultFiltersKeepCategory(ps: seq<Product>, categoryParam: Option<string>)
    requires forall p :: p in ps ==> DefaultMinPrice <= p.price <= DefaultMaxPrice
    ensures forall p :: (p in FilterProducts(ps, categoryParam, "", DefaultMinPrice, DefaultMaxPrice) <==>
                           p in ps && MatchesCategory(p, categoryParam))
  {
    forall p | p in ps {
      EmptyQueryMatchesAll(p);
    }
  }

  /** With the initial filters and the "featured" order, a catalogue priced
      within the default range is listed as exactly its category's
      products, in catalogue order. */
  lemma ClearedListing(ps: seq<Product>, categoryParam: Option<string>)
    requires forall p :: p in ps ==> DefaultMinPrice <= p.price <= DefaultMaxPrice
    ensures var l := Listing(ps, categoryParam, "", DefaultMinPrice, DefaultMaxPrice, "featured");
            && Seqs.Subsequence(l, ps)
            && forall p :: p in l <==> p in ps && MatchesCategory(p, categoryParam)
  {
    DefaultFiltersKeepCategory(ps, categoryParam);
    FilterKeepsOrder(ps, categoryParam, "", DefaultMinPrice, DefaultMaxPrice);
    assert OrderFor("featured").None?;
  }

  /** Without a category, the default filters keep every product priced
      in the default range, and "featured" leaves them in order. */
  lemma {:induction false} DefaultFiltersKeepAll(ps: seq<Product>)
    requires forall p :: p in ps ==> DefaultMinPrice <= p.price <= DefaultMaxPrice
    ensures Listing(ps, None, "", DefaultMinPrice, DefaultMaxPrice, "featured") == ps
  {
    if ps != [] {
      EmptyQueryMatchesAll(ps[0]);
      assert forall p :: p in ps[1..] ==> p in ps;
      DefaultFiltersKeepAll(ps[1..]);
    }
  }
}
