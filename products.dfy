/** The "All Products" page: search, price range and sort over its own
    catalogue. Categories and tags can be selected, but the filter does
    not read them; selecting one only re-runs the effect. */
module Products {
  import opened Query
  import Seqs
  import C = Catalogue

  function Mock(id: string, name: string, description: string, price: real, stockStatus: string,
                rating: real, reviewCount: int): C.Product
  {
    C.Product(id, name, description, price, ["/placeholder.svg", "/placeholder.svg"], stockStatus,
              Some(rating), Some(reviewCount), None, None)
  }

  /** The page's catalogue: one product, with neither category nor tags. */
  const MockProducts: seq<C.Product> := [
    Mock("1", "Premium Quilling Paper Set - Rainbow Collection",
         "High-quality quilling strips in 12 vibrant colors. Perfect for detailed artwork and decorative pieces.",
         2500.0, "In Stock", 4.8, 24)
  ]

  const Categories: seq<string> := ["Quilling Supplies", "Scrapbooking", "Paper Crafts", "Tools & Equipment",
                                    "Decoration Materials"]

  const Tags: seq<string> := ["beginner", "advanced", "colorful", "white", "pink", "blue", "eco-friendly",
                              "premium", "bulk", "starter-kit"]

  class Page {
    /** The products the page lists. */
    const catalogue: seq<C.Product>
    var searchQuery: string
    var selectedCategories: seq<string>
    var selectedTags: seq<string>
    var minPrice: real
    var maxPrice: real
    var sortBy: string
    var filteredProducts: seq<C.Product>

    /** The list shows what the effect computes: no category parameter,
        and neither selection taken into account. */
    ghost predicate Current()
      reads this
    {
      filteredProducts == C.Listing(catalogue, None, searchQuery, minPrice, maxPrice, sortBy)
    }

    constructor ()
      ensures catalogue == MockProducts
      ensures searchQuery == "" && selectedCategories == [] && selectedTags == []
      ensures minPrice == C.DefaultMinPrice && maxPrice == C.DefaultMaxPrice && sortBy == "featured"
      ensures Current()
    {
      catalogue := MockProducts;
      searchQuery := "";
      selectedCategories := [];
      selectedTags := [];
      minPrice := C.DefaultMinPrice;
      maxPrice := C.DefaultMaxPrice;
      sortBy := "featured";
      new;
      Refresh();
    }

    /** The filter-and-sort effect. */
    method Refresh()
      modifies this
      ensures Current()
      ensures searchQuery == old(searchQuery) && selectedCategories == old(selectedCategories)
      ensures selectedTags == old(selectedTags)
      ensures minPrice == old(minPrice) && maxPrice == old(maxPrice) && sortBy == old(sortBy)
    {
      filteredProducts := C.Listing(catalogue, None, searchQuery, minPrice, maxPrice, sortBy);
    }

    /** `handleCategoryToggle`, then the effect. The list does not change. */
    method ToggleCategory(category: string)
      requires Current()
      modifies this
      ensures selectedCategories == Seqs.Toggle(old(selectedCategories), category)
      ensures selectedTags == old(selectedTags)
      ensures filteredProducts == old(filteredProducts) && Current()
      ensures searchQuery == old(searchQuery) && minPrice == old(minPrice)
      ensures maxPrice == old(maxPrice) && sortBy == old(sortBy)
    {
      selectedCategories := Seqs.Toggle(selectedCategories, category);
      Refresh();
    }

    /** `handleTagToggle`, then the effect. The list does not change. */
    method ToggleTag(tag: string)
      requires Current()
      modifies this
      ensures selectedTags == Seqs.Toggle(old(selectedTags), tag)
      ensures selectedCategories == old(selectedCategories)
      ensures filteredProducts == old(filteredProducts) && Current()
      ensures searchQuery == old(searchQuery) && minPrice == old(minPrice)
      ensures maxPrice == old(maxPrice) && sortBy == old(sortBy)
    {
      selectedTags := Seqs.Toggle(selectedTags, tag);
      Refresh();
    }

    /** The search box, then the effect. */
    method SetQuery(q: string)
      modifies this
      ensures searchQuery == q && Current()
      ensures selectedCategories == old(selectedCategories) && selectedTags == old(selectedTags)
      ensures minPrice == old(minPrice) && maxPrice == old(maxPrice) && sortBy == old(sortBy)
    {
      searchQuery := q;
      Refresh();
    }

    /** The price slider, then the effect. */
    method SetPriceRange(lo: real, hi: real)
      modifies this
      ensures minPrice == lo && maxPrice == hi && Current()
      ensures selectedCategories == old(selectedCategories) && selectedTags == old(selectedTags)
      ensures searchQuery == old(searchQuery) && sortBy == old(sortBy)
    {
      minPrice := lo;
      maxPrice := hi;
      Refresh();
    }

    /** The sort menu, then the effect. */
    method SetSort(s: string)
      modifies this
      ensures sortBy == s && Current()
      ensures selectedCategories == old(selectedCategories) && selectedTags == old(selectedTags)
      ensures searchQuery == old(searchQuery) && minPrice == old(minPrice) && maxPrice == old(maxPrice)
    {
      sortBy := s;
      Refresh();
    }

    /** `clearFilters`, then the effect. */
    method ClearFilters()
      modifies this
      ensures selectedCategories == [] && selectedTags == []
      ensures minPrice == C.DefaultMinPrice && maxPrice == C.DefaultMaxPrice
      ensures searchQuery == "" && sortBy == "featured" && Current()
    {
      selectedCategories := [];
      selectedTags := [];
      minPrice := C.DefaultMinPrice;
      maxPrice := C.DefaultMaxPrice;
      searchQuery := "";
      sortBy := "featured";
      Refresh();
    }

    /** The "Clear Filters" button is shown while a category or a tag is
        selected. */
    predicate ShowClearFilters()
      reads this
    {
      |selectedCategories| > 0 || |selectedTags| > 0
    }
  }

  /** The listing never consults the selected categories or tags: it holds
      exactly the catalogue's products that match the search and the price
      range. */
  lemma SelectionIsIgnored(catalogue: seq<C.Product>, query: string, minPrice: real, maxPrice: real,
                           sortBy: string)
    ensures forall p :: p in C.Listing(catalogue, None, query, minPrice, maxPrice, sortBy) <==>
                          p in catalogue && C.MatchesSearch(p, query) && C.MatchesPrice(p, minPrice, maxPrice)
  {
    C.ListingSpec(catalogue, None, query, minPrice, maxPrice, sortBy);
  }

  /** With the default filters the page shows its whole catalogue, in
      catalogue order. */
  lemma DefaultsShowEverything()
    ensures C.Listing(MockProducts, None, "", C.DefaultMinPrice, C.DefaultMaxPrice, "featured") == MockProducts
  {
    C.DefaultFiltersKeepAll(MockProducts);
  }
}
