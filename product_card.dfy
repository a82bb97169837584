/** The product tile: image with a second image on hover, stock badge,
    star row and the "Inquire to Order" button. */
module ProductCard {
  import opened Query
  import opened Ui
  import Paging

  const Placeholder: string := "/placeholder.svg"

  /** `getStockBadgeVariant`. */
  function StockBadge(status: string): (b: Badge)
    ensures b == Secondary <==> status == "Low Stock"
    ensures b == Destructive <==> status == "Out of Stock"
    ensures b == Default <==> status != "Low Stock" && status != "Out of Stock"
  {
    match status
    case "In Stock" => Default
    case "Low Stock" => Secondary
    case "Out of Stock" => Destructive
    case _ => Default
  }

  /** `images[currentImageIndex] || "/placeholder.svg"`. */
  function DisplayedImage(images: seq<string>, index: nat): (url: string)
    ensures url != ""
    ensures index < |images| && images[index] != "" ==> url == images[index]
    ensures index >= |images| || images[index] == "" ==> url == Placeholder
  {
    if index < |images| && images[index] != "" then images[index] else Placeholder
  }

  /** The "Inquire to Order" button is disabled only when out of stock. */
  predicate InquireDisabled(stockStatus: string) {
    stockStatus == "Out of Stock"
  }

  // ---------------------------------------------------------------------
  // Stars

  /** `rating = 0` when the prop is absent. */
  function RatingOf(rating: Option<real>): real {
    if rating.Some? then rating.value else 0.0
  }

  /** The star row is shown only for a positive rating. */
  predicate RatingShown(rating: real) { rating > 0.0 }

  /** Star `i` (0 to 4) is filled. */
  predicate StarFilled(i: int, rating: real) { i as real < rating }

  /** The least integer at or above `r`. */
  function Ceil(r: real): (c: int)
    ensures c as real - 1.0 < r <= c as real
  {
    -((-r).Floor)
  }

  /** How many of the stars `from` to 4 are filled. */
  function FilledFrom(from: nat, rating: real): (n: nat)
    requires from <= 5
    decreases 5 - from
  {
    if from == 5 then 0 else (if StarFilled(from, rating) then 1 else 0) + FilledFrom(from + 1, rating)
  }

  /** A fractional rating fills up to its ceiling: 4.2 shows five stars. */
  lemma FilledStars(rating: real)
    ensures FilledFrom(0, rating) == Paging.Min(Paging.Max(Ceil(rating), 0), 5)
  {
    FilledFromCount(0, rating);
  }

  lemma {:induction false} FilledFromCount(from: nat, rating: real)
    requires from <= 5
    ensures FilledFrom(from, rating) == Paging.Max(0, Paging.Min(Paging.Max(Ceil(rating), 0), 5) - from)
    decreases 5 - from
  {
    if from < 5 {
      assert StarFilled(from, rating) <==> from < Ceil(rating);
      FilledFromCount(from + 1, rating);
    }
  }

  // ---------------------------------------------------------------------
  // Hover

  class Card {
    const images: seq<string>
    var currentImageIndex: nat
    var isImageHovered: bool

    /** Either at rest on the first image, or hovered on the second one of
        a card that has one. */
    ghost predicate Valid()
      reads this
    {
      (currentImageIndex == 0 && !isImageHovered)
      || (currentImageIndex == 1 && isImageHovered && |images| > 1)
    }

    constructor (images: seq<string>)
      ensures this.images == images && currentImageIndex == 0 && !isImageHovered && Valid()
    {
      this.images := images;
      currentImageIndex := 0;
      isImageHovered := false;
    }

    /** The image shown. */
    function Shown(): (url: string)
      reads this
      ensures url != ""
    {
      DisplayedImage(images, currentImageIndex)
    }

    /** `handleImageHover`: only a card with a second image switches. */
    method Hover()
      requires Valid()
      modifies this
      ensures Valid()
      ensures |images| > 1 ==> currentImageIndex == 1 && isImageHovered
      ensures |images| <= 1 ==> currentImageIndex == old(currentImageIndex) && isImageHovered == old(isImageHovered)
    {
      if |images| > 1 {
        isImageHovered := true;
        currentImageIndex := 1;
      }
    }

    /** `handleImageLeave`. */
    method Leave()
      modifies this
      ensures currentImageIndex == 0 && !isImageHovered && Valid()
    {
      isImageHovered := false;
      currentImageIndex := 0;
    }
  }

  /** Under the invariant the index is 0 or an index of the image list, so
      the tile shows one of its images or the placeholder. */
  lemma ShownIsAnImage(images: seq<string>, index: nat, hovered: bool)
    requires (index == 0 && !hovered) || (index == 1 && hovered && |images| > 1)
    ensures index == 0 || index < |images|
    ensures DisplayedImage(images, index) in images || DisplayedImage(images, index) == Placeholder
    ensures hovered && images[1] != "" ==> DisplayedImage(images, index) == images[1]
  {
  }
}
