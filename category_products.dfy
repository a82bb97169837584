/** The category page: the catalogue narrowed to the `category` query
    parameter, with search, price range, tag selection and sort. The
    effect recomputes the list whenever one of its inputs changes. */
module CategoryProducts {
  import opened Query
  import Seqs
  import C = Catalogue

  function Mock(id: string, name: string, description: string, price: real, stockStatus: string,
                rating: real, reviewCount: int, category: string): C.Product
  {
    C.Product(id, name, description, price, ["/placeholder.svg", "/placeholder.svg"], stockStatus,
              Some(rating), Some(reviewCount), Some(category), None)
  }

  /** The page's catalogue. */
  const MockProducts: seq<C.Product> := [
    Mock("1", "Premium Quilling Paper Set - Rainbow Collection",
         "High-quality quilling strips in 12 vibrant colors. Perfect for detailed artwork and decorative pieces.",
         2500.0, "In Stock", 4.8, 24, "quilling-paper"),
    Mock("2", "Handcrafted Floral Embossed Wedding Card",
         "Elegant wedding card with intricate floral embossing and premium pearl finish. Includes matching envelope.",
         1200.0, "In Stock", 4.9, 32, "cards"),
    Mock("3", "Paper Quilled Butterfly Earrings - Blue",
         "Lightweight and colorful butterfly-shaped earrings made with precision quilling techniques. Sterling silver hooks.",
         1800.0, "Low Stock", 4.7, 18, "earrings"),
    Mock("4", "Decorative Paper Art Framed Mug - Elephant Design",
         "Ceramic mug with handcrafted paper art frame featuring traditional Sri Lankan elephant design. Food-safe and hand-washable.",
         2200.0, "In Stock", 4.6, 15, "mugs"),
    Mock("5", "Vibrant Acrylic Fabric Bundle - Summer Colors",
         "Set of 5 high-quality acrylic fabric pieces in bright summer colors. Each piece measures 1m x 1.5m.",
         3500.0, "In Stock", 4.5, 12, "fabric"),
    Mock("6", "DIY Macrame Plant Hanger Kit - Beginner Friendly",
         "Complete kit with premium cotton rope, wooden beads, and detailed instructions for creating your own macrame plant hanger.",
         1950.0, "In Stock", 4.4, 9, "macrame")
  ]

  const DisplayNames: map<string, string> := map[
    "earrings" := "Intricate Paper Quilled Earrings",
    "cards" := "Handcrafted Floral Embossed Cards",
    "mugs" := "Artisanal Paper Framed Mugs",
    "quilling-paper" := "Premium Quilling Paper",
    "fabric" := "Vibrant Acrylic Fabric",
    "macrame" := "DIY Macrame Plant Hangers"
  ]

  const Descriptions: map<string, string> := map[
    "earrings" := "Delicate and lightweight earrings made with precision quilling techniques. Each piece is handcrafted with care and features vibrant colors.",
    "cards" := "Beautiful greeting cards featuring intricate embossed floral designs. Perfect for special occasions or to send a heartfelt message.",
    "mugs" := "Unique decorative mugs adorned with handcrafted paper art frames. These pieces make wonderful gifts or eye-catching additions to your home.",
    "quilling-paper" := "Our top-tier quilling strips with rich, vibrant colors. Perfect for detailed artwork and decorative pieces.",
    "fabric" := "High-quality acrylic fabric in a range of vivid colors. Ideal for various crafting projects, from clothing to home decor.",
    "macrame" := "Complete kits for creating your own stylish macrame plant hangers. Includes premium cotton rope, wooden beads, and detailed instructions."
  ]

  /** `getCategoryTitle`. */
  function CategoryTitle(categoryParam: Option<string>): (t: string)
    ensures categoryParam.None? || categoryParam.value == "" ==> t == "All Products"
    ensures categoryParam.Some? && categoryParam.value in DisplayNames ==> t == DisplayNames[categoryParam.value]
    ensures categoryParam.Some? && categoryParam.value != "" && categoryParam.value !in DisplayNames ==>
              t == categoryParam.value
  {
    if categoryParam.None? || categoryParam.value == "" then "All Products"
    else if categoryParam.value in DisplayNames && DisplayNames[categoryParam.value] != ""
    then DisplayNames[categoryParam.value]
    else categoryParam.value
  }

  /** `getCategoryDescription`. */
  function CategoryDescription(categoryParam: Option<string>): (d: string)
    ensures categoryParam.None? || categoryParam.value == "" ==>
              d == "Discover our complete collection of premium crafting supplies"
    ensures categoryParam.Some? && categoryParam.value in Descriptions ==> d == Descriptions[categoryParam.value]
    ensures categoryParam.Some? && categoryParam.value != "" && categoryParam.value !in Descriptions ==> d == ""
  {
    if categoryParam.None? || categoryParam.value == "" then "Discover our complete collection of premium crafting supplies"
    else if categoryParam.value in Descriptions then Descriptions[categoryParam.value]
    else ""
  }

  /** Every mock product's category has a display name and a description. */
  lemma MocksAreDescribed()
    ensures forall p :: p in MockProducts ==>
              p.category.Some? && p.category.value in DisplayNames && p.category.value in Descriptions
  {
  }

  /** Every mock price lies in the default range. */
  lemma MocksInDefaultRange()
    ensures forall p :: p in MockProducts ==> C.DefaultMinPrice <= p.price <= C.DefaultMaxPrice
  {
  }

  class Page {
    /** The products the page lists. */
    const catalogue: seq<C.Product>
    const categoryParam: Option<string>
    var searchQuery: string
    var selectedTags: seq<string>
    var minPrice: real
    var maxPrice: real
    var sortBy: string
    var filteredProducts: seq<C.Product>

    /** The list shows what the effect computes from the current inputs;
        the selected tags are not among them. */
    ghost predicate Current()
      reads this
    {
      filteredProducts == C.Listing(catalogue, categoryParam, searchQuery, minPrice, maxPrice, sortBy)
    }

    constructor (categoryParam: Option<string>)
      ensures catalogue == MockProducts
      ensures this.categoryParam == categoryParam && searchQuery == "" && selectedTags == []
      ensures minPrice == C.DefaultMinPrice && maxPrice == C.DefaultMaxPrice && sortBy == "featured"
      ensures Current()
    {
      catalogue := MockProducts;
      this.categoryParam := categoryParam;
      searchQuery := "";
      selectedTags := [];
      minPrice := C.DefaultMinPrice;
      maxPrice := C.DefaultMaxPrice;
      sortBy := "featured";
      new;
      Refresh();
    }

    /** The filter-and-sort effect. */
    method Refresh()
      modifies this
      ensures Current()
      ensures searchQuery == old(searchQuery) && selectedTags == old(selectedTags)
      ensures minPrice == old(minPrice) && maxPrice == old(maxPrice) && sortBy == old(sortBy)
    {
      filteredProducts := C.Listing(catalogue, categoryParam, searchQuery, minPrice, maxPrice, sortBy);
    }

    /** `handleTagToggle`, then the effect (the tags are among its
        dependencies). The list does not change. */
    method ToggleTag(tag: string)
      requires Current()
      modifies this
      ensures selectedTags == Seqs.Toggle(old(selectedTags), tag)
      ensures filteredProducts == old(filteredProducts) && Current()
      ensures searchQuery == old(searchQuery) && minPrice == old(minPrice)
      ensures maxPrice == old(maxPrice) && sortBy == old(sortBy)
    {
      selectedTags := Seqs.Toggle(selectedTags, tag);
      Refresh();
    }

    /** The search box, then the effect. */
    method SetQuery(q: string)
      modifies this
      ensures searchQuery == q && Current()
      ensures selectedTags == old(selectedTags) && minPrice == old(minPrice)
      ensures maxPrice == old(maxPrice) && sortBy == old(sortBy)
    {
      searchQuery := q;
      Refresh();
    }

    /** The price slider, then the effect. */
    method SetPriceRange(lo: real, hi: real)
      modifies this
      ensures minPrice == lo && maxPrice == hi && Current()
      ensures selectedTags == old(selectedTags) && searchQuery == old(searchQuery) && sortBy == old(sortBy)
    {
      minPrice := lo;
      maxPrice := hi;
      Refresh();
    }

    /** The sort menu, then the effect. */
    method SetSort(s: string)
      modifies this
      ensures sortBy == s && Current()
      ensures selectedTags == old(selectedTags) && searchQuery == old(searchQuery)
      ensures minPrice == old(minPrice) && maxPrice == old(maxPrice)
    {
      sortBy := s;
      Refresh();
    }

    /** `clearFilters`, then the effect. */
    method ClearFilters()
      modifies this
      ensures selectedTags == [] && minPrice == C.DefaultMinPrice && maxPrice == C.DefaultMaxPrice
      ensures searchQuery == "" && sortBy == "featured" && Current()
    {
      selectedTags := [];
      minPrice := C.DefaultMinPrice;
      maxPrice := C.DefaultMaxPrice;
      searchQuery := "";
      sortBy := "featured";
      Refresh();
    }

    /** The "Clear Filters" button is shown only while a tag is selected. */
    predicate ShowClearFilters()
      reads this
    {
      |selectedTags| > 0
    }
  }

  /** After clearing, the page lists its category's products in catalogue
      order. */
  lemma ClearedListsCategoryInOrder(categoryParam: Option<string>)
    ensures var l := C.Listing(MockProducts, categoryParam, "", C.DefaultMinPrice, C.DefaultMaxPrice, "featured");
            && Seqs.Subsequence(l, MockProducts)
            && forall p :: p in l <==> p in MockProducts && C.MatchesCategory(p, categoryParam)
  {
    MocksInDefaultRange();
    C.ClearedListing(MockProducts, categoryParam);
  }
}
