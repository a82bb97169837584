/** The related-products strip under a product: every other catalogue
    product that shares the category or a tag (or that cannot be compared
    by tags), the most tag-relevant first, cut to a limit and shown four
    at a time in a carousel. */
module RelatedProducts {
  import opened Query
  import Paging
  import C = Catalogue

  function Mock(id: string, name: string, description: string, price: real, stockStatus: string,
                rating: real, reviewCount: int, category: string, tags: seq<string>): C.Product
  {
    C.Product(id, name, description, price, ["/placeholder.svg", "/placeholder.svg"], stockStatus,
              Some(rating), Some(reviewCount), Some(category), Some(tags))
  }

  /** The strip's catalogue. */
  const MockProducts: seq<C.Product> := [
    Mock("1", "Premium Quilling Paper Set - Rainbow Collection",
         "High-quality quilling strips in 12 vibrant colors. Perfect for detailed artwork and decorative pieces.",
         2500.0, "In Stock", 4.8, 24, "quilling-paper", ["premium", "colorful", "paper"]),
    Mock("2", "Handcrafted Floral Embossed Wedding Card",
         "Elegant wedding card with intricate floral embossing and premium pearl finish. Includes matching envelope.",
         1200.0, "In Stock", 4.9, 32, "cards", ["premium", "wedding", "paper"]),
    Mock("3", "Paper Quilled Butterfly Earrings - Blue",
         "Lightweight and colorful butterfly-shaped earrings made with precision quilling techniques. Sterling silver hooks.",
         1800.0, "Low Stock", 4.7, 18, "earrings", ["blue", "butterfly", "jewelry"]),
    Mock("4", "Decorative Paper Art Framed Mug - Elephant Design",
         "Ceramic mug with handcrafted paper art frame featuring traditional Sri Lankan elephant design. Food-safe and hand-washable.",
         2200.0, "In Stock", 4.6, 15, "mugs", ["elephant", "traditional", "gift"]),
    Mock("5", "Vibrant Acrylic Fabric Bundle - Summer Colors",
         "Set of 5 high-quality acrylic fabric pieces in bright summer colors. Each piece measures 1m x 1.5m.",
         3500.0, "In Stock", 4.5, 12, "fabric", ["summer", "colorful", "bulk"]),
    Mock("6", "DIY Macrame Plant Hanger Kit - Beginner Friendly",
         "Complete kit with premium cotton rope, wooden beads, and detailed instructions for creating your own macrame plant hanger.",
         1950.0, "In Stock", 4.4, 9, "macrame", ["beginner", "diy", "kit"])
  ]

  /** `limit = 4` and `productsPerPage = 4`. */
  const DefaultLimit: int := 4
  const ProductsPerPage: nat := 4

  // ---------------------------------------------------------------------
  // Selection

  /** The filter's callback: never the current product; yes on a shared
      (non-empty) category; otherwise, when both sides have tags, yes on a
      shared tag; and yes in every remaining case. */
  predicate IsRelated(p: C.Product, currentProductId: string, category: Option<string>, tags: seq<string>) {
    if p.id == currentProductId then false
    else if category.Some? && category.value != "" && p.category == category then true
    else if |tags| > 0 && p.tags.Some? then C.CountAmong(p.tags.value, tags) > 0
    else true
  }

  /** A product is left out exactly when it is the current one, or when it
      has tags, none of them is among the wanted tags (of which there is at
      least one), and it does not share the category. */
  lemma ExcludedIff(p: C.Product, currentProductId: string, category: Option<string>, tags: seq<string>)
    ensures !IsRelated(p, currentProductId, category, tags) <==>
              p.id == currentProductId
              || (!(category.Some? && category.value != "" && p.category == category)
                  && |tags| > 0 && p.tags.Some? && (forall t :: t in p.tags.value ==> t !in tags))
  {
  }

  function RelatedAmong(ps: seq<C.Product>, currentProductId: string, category: Option<string>,
                        tags: seq<string>): (r: seq<C.Product>)
    ensures |r| <= |ps|
    ensures forall p :: p in r <==> p in ps && IsRelated(p, currentProductId, category, tags)
  {
    if ps == [] then []
    else (if IsRelated(ps[0], currentProductId, category, tags) then [ps[0]] else [])
         + RelatedAmong(ps[1..], currentProductId, category, tags)
  }

  /** `s.slice(0, limit)`: a negative limit counts back from the end. */
  function Take<T>(s: seq<T>, limit: int): (r: seq<T>)
    ensures 0 <= limit ==> |r| == Paging.Min(limit, |s|)
    ensures limit < 0 ==> |r| == Paging.Max(0, |s| + limit)
    ensures r == s[..|r|]
  {
    if limit >= 0 then Paging.Slice(s, 0, limit)
    else Paging.Slice(s, 0, Paging.Max(0, |s| + limit))
  }

  /** What the effect stores: the related products, most matching tags
      first (ties in catalogue order), cut to `limit`. */
  function Related(ps: seq<C.Product>, currentProductId: string, category: Option<string>,
                   tags: seq<string>, limit: int): seq<C.Product>
  {
    Take(C.Sort(C.TagRelevance(tags), RelatedAmong(ps, currentProductId, category, tags)), limit)
  }

  /** The strip shows only related products — never the current one —
      at most `limit` of them (or all when there are fewer), ordered by
      relevance, and every related product it leaves out matches no more
      tags than any it shows. */
  lemma RelatedSpec(ps: seq<C.Product>, currentProductId: string, category: Option<string>,
                    tags: seq<string>, limit: int)
    ensures var r := Related(ps, currentProductId, category, tags, limit);
            var f := RelatedAmong(ps, currentProductId, category, tags);
            && (forall p :: p in r ==> p in ps && IsRelated(p, currentProductId, category, tags))
            && (forall p :: p in r ==> p.id != currentProductId)
            && (0 <= limit ==> |r| == Paging.Min(limit, |f|))
            && C.Sorted(C.TagRelevance(tags), r)
            && (0 <= limit && |f| <= limit ==> multiset(r) == multiset(f))
  {
    var f := RelatedAmong(ps, currentProductId, category, tags);
    var s := C.Sort(C.TagRelevance(tags), f);
    var r := Related(ps, currentProductId, category, tags, limit);
    C.SortSorted(C.TagRelevance(tags), f);
    assert r == s[..|r|];
    forall p | p in r ensures p in f {
      assert p in s;
      assert p in multiset(s);
    }
    if 0 <= limit && |f| <= limit {
      assert r == s;
    }
  }

  /** With the default `limit` of 4 the strip holds at most one page of
      four, so the carousel arrows (`totalPages > 1`) never appear. */
  lemma DefaultLimitOnePage(ps: seq<C.Product>, currentProductId: string, category: Option<string>,
                            tags: seq<string>)
    ensures |Related(ps, currentProductId, category, tags, DefaultLimit)| <= ProductsPerPage
    ensures Paging.TotalPages(|Related(ps, currentProductId, category, tags, DefaultLimit)|, ProductsPerPage) <= 1
  {
    RelatedSpec(ps, currentProductId, category, tags, DefaultLimit);
  }

  /** The cut keeps the most relevant: everything sorted after the kept
      prefix matches at most as many tags as anything kept. */
  lemma KeptAreMostRelevant(ps: seq<C.Product>, currentProductId: string, category: Option<string>,
                            tags: seq<string>, limit: int)
    ensures var s := C.Sort(C.TagRelevance(tags), RelatedAmong(ps, currentProductId, category, tags));
            var r := Related(ps, currentProductId, category, tags, limit);
            forall i, j :: 0 <= i < |r| <= j < |s| ==> C.TagMatches(s[j], tags) <= C.TagMatches(r[i], tags)
  {
    var s := C.Sort(C.TagRelevance(tags), RelatedAmong(ps, currentProductId, category, tags));
    C.SortSorted(C.TagRelevance(tags), RelatedAmong(ps, currentProductId, category, tags));
    var r := Related(ps, currentProductId, category, tags, limit);
    assert r == s[..|r|];
    forall i, j | 0 <= i < |r| <= j < |s| ensures C.TagMatches(s[j], tags) <= C.TagMatches(r[i], tags) {
      assert r[i] == s[i];
      assert C.Le(C.TagRelevance(tags), s[i], s[j]);
    }
  }

  // ---------------------------------------------------------------------
  // Carousel

  /** `(prev + 1) % totalPages`. */
  function NextIndex(c: nat, t: nat): (n: nat)
    requires t > 0
    ensures n < t
    ensures c + 1 < t ==> n == c + 1
    ensures c + 1 == t ==> n == 0
  {
    (c + 1) % t
  }

  /** `(prev - 1 + totalPages) % totalPages`; the operand is never
      negative, so the remainder agrees with JavaScript's. */
  function PrevIndex(c: nat, t: nat): (n: nat)
    requires t > 0
    ensures n < t
    ensures 0 < c <= t ==> n == c - 1
    ensures c == 0 ==> n == t - 1
  {
    (c - 1 + t) % t
  }

  /** Next and previous undo each other on every page of the carousel. */
  lemma NextPrevInverse(c: nat, t: nat)
    requires c < t
    ensures PrevIndex(NextIndex(c, t), t) == c
    ensures NextIndex(PrevIndex(c, t), t) == c
  {
  }

  /** Stepping forward `k` times from the first page. */
  function Advance(c: nat, t: nat, k: nat): (n: nat)
    requires t > 0
    ensures n < t || (k == 0 && n == c)
  {
    if k == 0 then c else NextIndex(Advance(c, t, k - 1), t)
  }

  /** Stepping forward from the first page visits page k after k steps and
      comes back to the first page after `t` steps. */
  lemma {:induction false} AdvanceCycles(t: nat, k: nat)
    requires t > 0 && k <= t
    ensures k < t ==> Advance(0, t, k) == k
    ensures k == t ==> Advance(0, t, k) == 0
  {
    if k > 0 {
      AdvanceCycles(t, k - 1);
    }
  }

  class Strip {
    const catalogue: seq<C.Product>
    var relatedProducts: seq<C.Product>
    var currentPage: nat

    constructor ()
      ensures catalogue == MockProducts && relatedProducts == [] && currentPage == 0
    {
      catalogue := MockProducts;
      relatedProducts := [];
      currentPage := 0;
    }

    function TotalPages(): (t: nat)
      reads this
      ensures t == 0 <==> |relatedProducts| == 0
    {
      Paging.TotalPages(|relatedProducts|, ProductsPerPage)
    }

    /** The products on the current page. */
    function CurrentProducts(): (r: seq<C.Product>)
      reads this
      ensures |r| <= ProductsPerPage
      ensures currentPage < TotalPages() ==> |r| > 0
    {
      Paging.PageAtCount(relatedProducts, currentPage, ProductsPerPage);
      Paging.PageAt(relatedProducts, currentPage, ProductsPerPage)
    }

    /** The component renders nothing without related products. */
    predicate RendersNothing()
      reads this
    {
      |relatedProducts| == 0
    }

    /** The arrows are shown only when there is more than one page. */
    predicate ShowsControls()
      reads this
    {
      TotalPages() > 1
    }

    /** The effect. The page index is kept as it was. */
    method Refresh(currentProductId: string, category: Option<string>, tags: seq<string>, limit: int)
      modifies this
      ensures relatedProducts == Related(catalogue, currentProductId, category, tags, limit)
      ensures currentPage == old(currentPage)
    {
      relatedProducts := Related(catalogue, currentProductId, category, tags, limit);
    }

    /** `nextPage`; its button exists only when the arrows are shown. */
    method Next()
      requires ShowsControls()
      modifies this
      ensures relatedProducts == old(relatedProducts)
      ensures currentPage == NextIndex(old(currentPage), TotalPages()) && currentPage < TotalPages()
    {
      currentPage := NextIndex(currentPage, TotalPages());
    }

    /** `prevPage`. */
    method Prev()
      requires ShowsControls()
      modifies this
      ensures relatedProducts == old(relatedProducts)
      ensures currentPage == PrevIndex(old(currentPage), TotalPages()) && currentPage < TotalPages()
    {
      currentPage := PrevIndex(currentPage, TotalPages());
    }
  }
}
