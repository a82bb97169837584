/** The order-history page: the signed-in user's order inquiries, newest
    first, five to a page, each shown with the first image of its product
    and a status badge. */
module Orders {
  import opened Query
  import opened Ui
  import Paging

  const OrdersPerPage: nat := 5

  datatype ProductRef = ProductRef(id: string, name: string, price: real)

  /** A row of the inquiry query: it selects the id, the date, the quantity
      and the product, and no status column. */
  datatype InquiryRow = InquiryRow(id: string, inquiryDate: string, quantity: int,
                                   product: Option<ProductRef>)

  /** An inquiry as the page holds it. `status` is read from the row, which
      never carries one. */
  datatype Inquiry = Inquiry(id: string, inquiryDate: string, quantity: int, status: Option<string>,
                             productId: Option<string>, productName: Option<string>, price: real)

  /** One row of the load's `map`. The query does not select `status`, so
      it is always absent; a missing product leaves no id or name. */
  function NormalizeRow(d: InquiryRow): (r: Inquiry)
    ensures r.id == d.id && r.inquiryDate == d.inquiryDate && r.quantity == d.quantity
    ensures r.status.None?
    ensures d.product.None? ==> r.productId.None? && r.productName.None? && r.price == 0.0
    ensures d.product.Some? ==> r.productId == Some(d.product.value.id) && r.price == d.product.value.price
  {
    Inquiry(d.id, d.inquiryDate, d.quantity, None,
            if d.product.Some? then Some(d.product.value.id) else None,
            if d.product.Some? then Some(d.product.value.name) else None,
            if d.product.Some? then d.product.value.price else 0.0)
  }

  function Normalize(rows: seq<InquiryRow>): (r: seq<Inquiry>)
    ensures |r| == |rows|
    ensures forall i :: 0 <= i < |rows| ==> r[i] == NormalizeRow(rows[i])
  {
    if rows == [] then [] else [NormalizeRow(rows[0])] + Normalize(rows[1..])
  }

  // ---------------------------------------------------------------------
  // Status display

  /** `order.status || "Pending"`. */
  function DisplayStatus(status: Option<string>): (s: string)
    ensures status.Some? && status.value != "" ==> s == status.value
    ensures status.None? ==> s == "Pending"
  {
    if status.Some? && status.value != "" then status.value else "Pending"
  }

  /** `getStatusBadgeVariant`. */
  function StatusBadge(status: string): (b: Badge)
    ensures b == Default <==> status == "Processing" || status == "Shipped"
    ensures b == Outline <==> status == "Delivered"
    ensures b == Destructive <==> status == "Cancelled"
  {
    match status
    case "Processing" => Default
    case "Shipped" => Default
    case "Delivered" => Outline
    case "Cancelled" => Destructive
    case _ => Secondary
  }

  /** Since the query selects no status, every loaded inquiry is shown as
      "Pending" with the secondary badge. */
  lemma LoadedInquiriesShowPending(rows: seq<InquiryRow>, i: int)
    requires 0 <= i < |rows|
    ensures DisplayStatus(Normalize(rows)[i].status) == "Pending"
    ensures StatusBadge(DisplayStatus(Normalize(rows)[i].status)) == Secondary
  {
  }

  // ---------------------------------------------------------------------
  // Pagination

  /** `currentOrders`: page `p`, counted from 1. */
  function CurrentOrders(orders: seq<Inquiry>, p: nat): (r: seq<Inquiry>)
    requires p >= 1
    ensures |r| <= OrdersPerPage
    ensures (p - 1) * OrdersPerPage <= |orders| ==>
              r == orders[(p - 1) * OrdersPerPage .. Paging.Min(p * OrdersPerPage, |orders|)]
  {
    Paging.PageAt(orders, p - 1, OrdersPerPage)
  }

  /** `Math.ceil(orders.length / ordersPerPage)`. */
  function TotalPages(orders: seq<Inquiry>): (t: nat)
    ensures t == 0 <==> orders == []
    ensures |orders| <= t * OrdersPerPage
    ensures t > 0 ==> (t - 1) * OrdersPerPage < |orders|
  {
    Paging.TotalPages(|orders|, OrdersPerPage)
  }

  /** Every page but the last shows five orders. */
  lemma EarlierPagesAreFull(orders: seq<Inquiry>, p: nat)
    requires 1 <= p < TotalPages(orders)
    ensures |CurrentOrders(orders, p)| == OrdersPerPage
  {
    Paging.FullPagesBeforeLast(orders, p - 1, OrdersPerPage);
  }

  /** Pages 1 to `TotalPages` together list every order once, in order. */
  lemma PagesListEveryOrder(orders: seq<Inquiry>)
    ensures Paging.PagesUpTo(orders, OrdersPerPage, TotalPages(orders)) == orders
    ensures forall p :: 1 <= p <= TotalPages(orders) ==> CurrentOrders(orders, p) != []
  {
    Paging.PagesCoverList(orders, OrdersPerPage);
    forall p | 1 <= p <= TotalPages(orders) ensures CurrentOrders(orders, p) != [] {
      Paging.PageAtCount(orders, p - 1, OrdersPerPage);
    }
  }

  /** The "previous" control. */
  function PrevPage(p: int): (q: int)
    ensures q >= 1
    ensures p > 1 ==> q == p - 1
  {
    Paging.Max(p - 1, 1)
  }

  /** The "next" control. */
  function NextPage(p: int, totalPages: nat): (q: int)
    ensures q <= totalPages
    ensures p < totalPages ==> q == p + 1
  {
    Paging.Min(p + 1, totalPages)
  }

  // ---------------------------------------------------------------------
  // Product ids

  /** `filter(Boolean)` on the optional product ids. */
  function PresentIds(ids: seq<Option<string>>): (r: seq<string>)
    ensures forall x :: x in r <==> Some(x) in ids && x != ""
  {
    if ids == [] then []
    else (if ids[0].Some? && ids[0].value != "" then [ids[0].value] else []) + PresentIds(ids[1..])
  }

  /** `Array.from(new Set(xs))`: first occurrences, in order. */
  function Dedupe(xs: seq<string>): (r: seq<string>)
    ensures forall x :: x in r <==> x in xs
  {
    if xs == [] then []
    else
      var r := Dedupe(xs[..|xs| - 1]);
      assert xs == xs[..|xs| - 1] + [xs[|xs| - 1]];
      if xs[|xs| - 1] in r then r else r + [xs[|xs| - 1]]
  }

  /** Index of the first occurrence of `x` in `xs`. */
  function FirstIndex(xs: seq<string>, x: string): (k: nat)
    requires x in xs
    ensures k < |xs| && xs[k] == x && x !in xs[..k]
  {
    if xs[0] == x then 0 else 1 + FirstIndex(xs[1..], x)
  }

  ghost predicate Distinct(xs: seq<string>) {
    forall i, j :: 0 <= i < j < |xs| ==> xs[i] != xs[j]
  }

  /** The deduplicated ids are distinct. */
  lemma {:induction false} DedupeDistinct(xs: seq<string>)
    ensures Distinct(Dedupe(xs))
  {
    if xs != [] {
      var init := xs[..|xs| - 1];
      var last := xs[|xs| - 1];
      DedupeDistinct(init);
      var r := Dedupe(init);
      if last !in r {
        var d := r + [last];
        assert Dedupe(xs) == d;
        forall i, j | 0 <= i < j < |d| ensures d[i] != d[j] {
          if j == |r| {
            assert d[i] == r[i] && r[i] in r;
          }
        }
      }
    }
  }

  /** The deduplicated ids come in the order of their first occurrence. */
  lemma {:induction false} DedupeFirstSeenOrder(xs: seq<string>)
    ensures forall i, j :: 0 <= i < j < |Dedupe(xs)| ==>
              FirstIndex(xs, Dedupe(xs)[i]) < FirstIndex(xs, Dedupe(xs)[j])
  {
    if xs != [] {
      var init := xs[..|xs| - 1];
      var last := xs[|xs| - 1];
      assert init + [last] == xs;
      DedupeFirstSeenOrder(init);
      var r := Dedupe(init);
      forall k | 0 <= k < |r| ensures r[k] in init && FirstIndex(xs, r[k]) == FirstIndex(init, r[k]) {
        assert r[k] in r;
        FirstIndexPrefix(init, [last], r[k]);
      }
      if last in r {
        assert Dedupe(xs) == r;
      } else {
        var d := r + [last];
        assert Dedupe(xs) == d;
        assert last !in init;
        assert FirstIndex(xs, last) == |xs| - 1 by {
          assert last !in xs[..|xs| - 1];
        }
        forall i, j | 0 <= i < j < |d| ensures FirstIndex(xs, d[i]) < FirstIndex(xs, d[j]) {
          if j < |r| {
            assert d[i] == r[i] && d[j] == r[j];
          } else {
            assert d[i] == r[i] && d[j] == last;
          }
        }
      }
    }
  }

  lemma {:induction false} FirstIndexPrefix(a: seq<string>, b: seq<string>, y: string)
    requires y in a
    ensures FirstIndex(a + b, y) == FirstIndex(a, y)
  {
    if a[0] != y {
      assert (a + b)[1..] == a[1..] + b;
      FirstIndexPrefix(a[1..], b, y);
    }
  }

  /** `productIds` for the loaded inquiries. */
  function ProductIds(orders: seq<Inquiry>): (r: seq<string>)
    ensures forall x :: x in r <==> x != "" && exists i :: 0 <= i < |orders| && orders[i].productId == Some(x)
  {
    var ids := seq(|orders|, i requires 0 <= i < |orders| => orders[i].productId);
    IdsOfOrders(orders, ids);
    Dedupe(PresentIds(ids))
  }

  lemma IdsOfOrders(orders: seq<Inquiry>, ids: seq<Option<string>>)
    requires |ids| == |orders| && forall i :: 0 <= i < |orders| ==> ids[i] == orders[i].productId
    ensures forall x :: Some(x) in ids <==> exists i :: 0 <= i < |orders| && orders[i].productId == Some(x)
  {
    forall x ensures Some(x) in ids <==> exists i :: 0 <= i < |orders| && orders[i].productId == Some(x) {
      if Some(x) in ids {
        var k :| 0 <= k < |ids| && ids[k] == Some(x);
        assert orders[k].productId == Some(x);
      }
    }
  }

  // ---------------------------------------------------------------------
  // First image per product

  datatype ImageRow = ImageRow(productId: string, imageUrl: string, displayOrder: int)

  /** The map the `forEach` has built after the rows `imgs`: a product's
      entry is set while it is absent or empty. */
  function ImageMapAfter(imgs: seq<ImageRow>): map<string, string>
  {
    if imgs == [] then map[]
    else
      var m := ImageMapAfter(imgs[..|imgs| - 1]);
      var x := imgs[|imgs| - 1];
      if x.productId !in m || m[x.productId] == "" then m[x.productId := x.imageUrl] else m
  }

  /** The first non-empty image url of `pid` among `imgs`, "" when all are
      empty. */
  function FirstUrl(imgs: seq<ImageRow>, pid: string): string
  {
    if imgs == [] then ""
    else if imgs[0].productId == pid && imgs[0].imageUrl != "" then imgs[0].imageUrl
    else FirstUrl(imgs[1..], pid)
  }

  lemma {:induction false} FirstUrlAppend(imgs: seq<ImageRow>, x: ImageRow, pid: string)
    ensures FirstUrl(imgs + [x], pid) ==
              if FirstUrl(imgs, pid) != "" then FirstUrl(imgs, pid)
              else if x.productId == pid then x.imageUrl else ""
  {
    if imgs != [] {
      assert (imgs + [x])[1..] == imgs[1..] + [x];
      FirstUrlAppend(imgs[1..], x, pid);
    }
  }

  /** Each product that has a row holds its first non-empty image url;
      later images of the same product are ignored. */
  lemma {:induction false} ImageMapFirstImage(imgs: seq<ImageRow>)
    ensures forall pid :: pid in ImageMapAfter(imgs) <==> exists i :: 0 <= i < |imgs| && imgs[i].productId == pid
    ensures forall pid :: pid in ImageMapAfter(imgs) ==> ImageMapAfter(imgs)[pid] == FirstUrl(imgs, pid)
  {
    if imgs != [] {
      var init := imgs[..|imgs| - 1];
      ImageMapFirstImage(init);
      assert imgs == init + [imgs[|imgs| - 1]];
      forall pid ensures (pid in ImageMapAfter(imgs) <==> exists i :: 0 <= i < |imgs| && imgs[i].productId == pid)
                         && (pid in ImageMapAfter(imgs) ==> ImageMapAfter(imgs)[pid] == FirstUrl(imgs, pid)) {
        ImageMapStep(init, imgs[|imgs| - 1], pid);
      }
    }
  }

  /** One more row keeps the statement of `ImageMapFirstImage` for `pid`. */
  lemma ImageMapStep(init: seq<ImageRow>, x: ImageRow, pid: string)
    requires pid in ImageMapAfter(init) <==> exists i :: 0 <= i < |init| && init[i].productId == pid
    requires pid in ImageMapAfter(init) ==> ImageMapAfter(init)[pid] == FirstUrl(init, pid)
    ensures var imgs := init + [x];
            && (pid in ImageMapAfter(imgs) <==> exists i :: 0 <= i < |imgs| && imgs[i].productId == pid)
            && (pid in ImageMapAfter(imgs) ==> ImageMapAfter(imgs)[pid] == FirstUrl(imgs, pid))
  {
    var imgs := init + [x];
    assert imgs[..|imgs| - 1] == init;
    FirstUrlAppend(init, x, pid);
    if pid !in ImageMapAfter(init) {
      FirstUrlAbsent(init, pid);
    }
    if exists i :: 0 <= i < |init| && init[i].productId == pid {
      var i :| 0 <= i < |init| && init[i].productId == pid;
      assert imgs[i].productId == pid;
    }
    if exists i :: 0 <= i < |imgs| && imgs[i].productId == pid {
      var i :| 0 <= i < |imgs| && imgs[i].productId == pid;
      if i < |init| {
        assert init[i].productId == pid;
      }
    }
  }

  lemma {:induction false} FirstUrlAbsent(imgs: seq<ImageRow>, pid: string)
    requires forall i :: 0 <= i < |imgs| ==> imgs[i].productId != pid
    ensures FirstUrl(imgs, pid) == ""
  {
    if imgs != [] {
      FirstUrlAbsent(imgs[1..], pid);
    }
  }

  /** The `forEach` loop. */
  method BuildImageMap(imgs: seq<ImageRow>) returns (m: map<string, string>)
    ensures m == ImageMapAfter(imgs)
  {
    m := map[];
    var i := 0;
    while i < |imgs|
      invariant 0 <= i <= |imgs|
      invariant m == ImageMapAfter(imgs[..i])
    {
      var img := imgs[i];
      assert imgs[..i + 1][..i] == imgs[..i];
      if img.productId !in m || m[img.productId] == "" {
        m := m[img.productId := img.imageUrl];
      }
      i := i + 1;
    }
    assert imgs[..i] == imgs;
  }

  /** `productImages[order.product?.id || ""] || "/placeholder.svg"`. */
  function ImageFor(images: map<string, string>, productId: Option<string>): (src: string)
    ensures src != ""
    ensures productId.Some? && productId.value in images && images[productId.value] != "" ==>
              src == images[productId.value]
  {
    var key := if productId.Some? then productId.value else "";
    if key in images && images[key] != "" then images[key] else "/placeholder.svg"
  }

  // ---------------------------------------------------------------------
  // The page

  class Page {
    var orders: seq<Inquiry>
    var currentPage: int
    var productImages: map<string, string>
    var loading: bool

    ghost predicate Valid()
      reads this
    {
      currentPage >= 1
    }

    constructor ()
      ensures orders == [] && currentPage == 1 && productImages == map[] && loading && Valid()
    {
      orders := [];
      currentPage := 1;
      productImages := map[];
      loading := true;
    }

    /** The current page's inquiries. */
    function Current(): (r: seq<Inquiry>)
      requires Valid()
      reads this
      ensures |r| <= OrdersPerPage
    {
      CurrentOrders(orders, currentPage)
    }

    /** The pagination controls appear only with more than one page. */
    predicate ControlsShown()
      reads this
    {
      TotalPages(orders) > 1
    }

    /** `fetchOrders`. `rows` is the inquiry query's data (None for null),
        `imgs` the image query's (its error is not checked). */
    method Load(ok: bool, rows: Option<seq<InquiryRow>>, imgs: Option<seq<ImageRow>>)
      modifies this
      ensures !loading && currentPage == old(currentPage)
      ensures !ok ==> orders == old(orders) && productImages == old(productImages)
      ensures ok ==> orders == Normalize(if rows.Some? then rows.value else [])
      ensures ok && ProductIds(orders) != [] ==>
                productImages == ImageMapAfter(if imgs.Some? then imgs.value else [])
      ensures ok && ProductIds(orders) == [] ==> productImages == old(productImages)
    {
      loading := true;
      if !ok {
        loading := false;
        return;
      }
      orders := Normalize(if rows.Some? then rows.value else []);
      var ids := ProductIds(orders);
      if |ids| > 0 {
        var m := BuildImageMap(if imgs.Some? then imgs.value else []);
        productImages := m;
      }
      loading := false;
    }

    method Prev()
      requires Valid() && ControlsShown()
      modifies this
      ensures Valid() && currentPage == PrevPage(old(currentPage))
      ensures orders == old(orders) && productImages == old(productImages) && loading == old(loading)
    {
      currentPage := PrevPage(currentPage);
    }

    /** Next stays within the page count and, from a page in range, keeps
        the page in range. */
    method Next()
      requires Valid() && ControlsShown()
      modifies this
      ensures Valid() && currentPage == NextPage(old(currentPage), TotalPages(orders))
      ensures currentPage <= TotalPages(orders)
      ensures orders == old(orders) && productImages == old(productImages) && loading == old(loading)
    {
      currentPage := NextPage(currentPage, TotalPages(orders));
    }

    /** A numbered link. */
    method GoTo(i: nat)
      requires i < TotalPages(orders)
      modifies this
      ensures Valid() && currentPage == i + 1 && Current() != []
      ensures orders == old(orders) && productImages == old(productImages) && loading == old(loading)
    {
      currentPage := i + 1;
      Paging.PageAtCount(orders, i, OrdersPerPage);
    }
  }
}
