/** The order-confirmation page: it loads one order of the signed-in user
    with its items, derives an estimated delivery day from the shipping
    method, draws a display-only tracking number, and formats the order's
    fields for display. Dates are day numbers; the random draw is a
    parameter. */
module OrderConfirmation {
  import opened Query
  import Text
  import Database
  import Seqs

  // ---------------------------------------------------------------------
  // Delivery estimate

  /** Days from placement to the estimated delivery. */
  function DeliveryDays(shippingMethod: string): (d: nat)
    ensures shippingMethod == "express" ==> d == 2
    ensures shippingMethod == "priority" ==> d == 4
    ensures shippingMethod != "express" && shippingMethod != "priority" ==> d == 7
  {
    if shippingMethod == "express" then 2 else if shippingMethod == "priority" then 4 else 7
  }

  function EstimatedDelivery(createdDay: int, shippingMethod: string): (d: int)
    ensures createdDay + 2 <= d <= createdDay + 7
  {
    createdDay + DeliveryDays(shippingMethod)
  }

  /** The dearer the shipping, the sooner the estimate, and every estimate
      lies after the day of placement. */
  lemma FasterShippingArrivesSooner(createdDay: int, other: string)
    requires other != "express" && other != "priority"
    ensures createdDay < EstimatedDelivery(createdDay, "express")
              < EstimatedDelivery(createdDay, "priority")
              < EstimatedDelivery(createdDay, other)
  {
  }

  /** The estimate is the upper end of the window the label advertises. */
  lemma EstimateMatchesAdvertisedWindow(m: string)
    ensures FormatShippingMethod(m) == "Express Shipping (1-2 business days)" ==> DeliveryDays(m) == 2
    ensures FormatShippingMethod(m) == "Priority Shipping (3-5 business days)" ==> DeliveryDays(m) == 4
    ensures FormatShippingMethod(m) == "Standard Shipping (5-7 business days)" ==> DeliveryDays(m) == 7
  {
  }

  // ---------------------------------------------------------------------
  // Tracking number

  const TrackingDraws: nat := 10000000

  /** `TSM` followed by `floor(random * 10^7)` left-padded with zeros to
      seven digits; `draw` is that floor. */
  function TrackingNumber(draw: nat): (t: string)
    requires draw < TrackingDraws
    ensures |t| == 10 && t[..3] == "TSM"
    ensures Text.AllDigits(t[3..]) && Text.ParseDigits(t[3..]) == draw
  {
    var padded := Text.PadStart(Text.NatToString(draw), 7, '0');
    PaddedDraw(draw);
    var t := "TSM" + padded;
    assert t[..3] == "TSM" && t[3..] == padded;
    t
  }

  /** The draw, left-padded with zeros to seven places, is seven digits
      that read back as the draw. */
  lemma PaddedDraw(draw: nat)
    requires draw < TrackingDraws
    ensures var padded := Text.PadStart(Text.NatToString(draw), 7, '0');
            |padded| == 7 && Text.AllDigits(padded) && Text.ParseDigits(padded) == draw
  {
    var digits := Text.NatToString(draw);
    assert Text.Pow10(7) == TrackingDraws;
    Text.NatToStringLength(draw, 7);
    Text.ParseNatToString(draw);
    Text.PadZeros(digits, 7);
  }

  /** Different draws give different tracking numbers. */
  lemma TrackingNumberInjective(a: nat, b: nat)
    requires a < TrackingDraws && b < TrackingDraws
    requires TrackingNumber(a) == TrackingNumber(b)
    ensures a == b
  {
    assert TrackingNumber(a)[3..] == TrackingNumber(b)[3..];
  }

  /** `order.tracking_number || "Not available yet"`. */
  function TrackingDisplay(tracking: string): (shown: string)
    ensures tracking != "" ==> shown == tracking
  {
    if tracking == "" then "Not available yet" else tracking
  }

  // ---------------------------------------------------------------------
  // Display formatting

  /** `formatShippingMethod`: unknown methods read as standard. */
  function FormatShippingMethod(m: string): (shown: string)
    ensures m == "express" ==> shown == "Express Shipping (1-2 business days)"
    ensures m == "priority" ==> shown == "Priority Shipping (3-5 business days)"
    ensures m != "express" && m != "priority" ==> shown == "Standard Shipping (5-7 business days)"
  {
    match m
    case "express" => "Express Shipping (1-2 business days)"
    case "priority" => "Priority Shipping (3-5 business days)"
    case _ => "Standard Shipping (5-7 business days)"
  }

  /** `formatPaymentMethod`: only PayPal is named; everything else reads as
      a card payment. */
  function FormatPaymentMethod(m: string): (shown: string)
    ensures shown == "PayPal" <==> m == "paypal"
    ensures shown == "PayPal" || shown == "Credit Card"
  {
    if m == "paypal" then "PayPal" else "Credit Card"
  }

  /** The status badge: first character upper-cased, the rest kept. */
  function CapitalizeStatus(s: string): (r: string)
    ensures |r| == |s|
    ensures s != [] ==> r[0] == Text.UpperChar(s[0]) && r[1..] == s[1..]
  {
    if s == [] then [] else [Text.UpperChar(s[0])] + s[1..]
  }

  lemma CapitalizeIdempotent(s: string)
    ensures CapitalizeStatus(CapitalizeStatus(s)) == CapitalizeStatus(s)
  {
    if s != [] {
      assert !Text.IsLower(Text.UpperChar(s[0]));
    }
  }

  /** The stored status of a new order is shown as "Pending". */
  lemma PendingShownCapitalized()
    ensures CapitalizeStatus("pending") == "Pending"
  {
  }

  // ---------------------------------------------------------------------
  // The loaded order

  datatype ProductSummary = ProductSummary(id: string, name: string, images: seq<string>)

  /** An `order_items` row with its product joined in. */
  datatype ItemRow = ItemRow(id: string, orderId: string, productId: string, quantity: int,
                             pricePerUnit: real, product: Joined<ProductSummary>)

  datatype Item = Item(id: string, orderId: string, productId: string, quantity: int,
                       pricePerUnit: real, product: ProductSummary)

  /** The order as the page shows it: the stored row, its items, and the
      two fields the page derives. */
  datatype OrderView = OrderView(row: Database.OrderRow, items: seq<Item>,
                                 estimatedDelivery: int, trackingNumber: string)

  /** The line total shown beside each item. */
  function LineTotal(it: Item): real {
    it.quantity as real * it.pricePerUnit
  }

  /** `.eq('id', orderId).eq('user_id', userId)` on the orders table. */
  function OrdersMatching(orders: seq<Database.OrderRow>, orderId: string, userId: string)
    : (r: seq<Database.OrderRow>)
    ensures forall o :: o in r <==> o in orders && o.id == orderId && o.userId == userId
  {
    if orders == [] then []
    else (if orders[0].id == orderId && orders[0].userId == userId then [orders[0]] else [])
           + OrdersMatching(orders[1..], orderId, userId)
  }

  predicate ItemsWellJoined(rows: seq<ItemRow>) {
    forall i :: 0 <= i < |rows| ==> WellJoined(rows[i].product)
  }

  /** One item row with its joined product normalised. */
  function ItemOf(x: ItemRow): Item
    requires WellJoined(x.product)
  {
    Item(x.id, x.orderId, x.productId, x.quantity, x.pricePerUnit, Embedded(x.product))
  }

  /** The rows of one order, in table order. */
  function RowsOf(rows: seq<ItemRow>, orderId: string): seq<ItemRow> {
    Seqs.Filter((x: ItemRow) => x.orderId == orderId, rows)
  }

  /** `.eq('order_id', orderId)` on the items table, then the
      normalisation of the joined product. */
  function ItemsOf(rows: seq<ItemRow>, orderId: string): (r: seq<Item>)
    requires ItemsWellJoined(rows)
    ensures forall it :: it in r ==> it.orderId == orderId
    ensures forall i :: 0 <= i < |rows| && rows[i].orderId == orderId ==>
              Item(rows[i].id, orderId, rows[i].productId, rows[i].quantity, rows[i].pricePerUnit,
                   Embedded(rows[i].product)) in r
    ensures |r| <= |rows|
  {
    if rows == [] then []
    else
      var x := rows[0];
      (if x.orderId == orderId
       then [Item(x.id, x.orderId, x.productId, x.quantity, x.pricePerUnit, Embedded(x.product))]
       else [])
      + ItemsOf(rows[1..], orderId)
  }

  /** The items are the order's rows, filtered in table order and then
      normalised one by one: item `i` is built from the `i`-th row of the
      order, and there are no others. */
  lemma {:induction false} ItemsOfRows(rows: seq<ItemRow>, orderId: string)
    requires ItemsWellJoined(rows)
    ensures |ItemsOf(rows, orderId)| == |RowsOf(rows, orderId)|
    ensures forall i :: 0 <= i < |ItemsOf(rows, orderId)| ==>
              WellJoined(RowsOf(rows, orderId)[i].product)
              && ItemsOf(rows, orderId)[i] == ItemOf(RowsOf(rows, orderId)[i])
  {
    if rows != [] {
      assert ItemsWellJoined(rows[1..]) by {
        forall i | 0 <= i < |rows| - 1 ensures WellJoined(rows[1..][i].product) {
          assert rows[1..][i] == rows[i + 1];
        }
      }
      ItemsOfRows(rows[1..], orderId);
      if rows[0].orderId == orderId {
        assert RowsOf(rows, orderId) == [rows[0]] + RowsOf(rows[1..], orderId);
        assert ItemsOf(rows, orderId) == [ItemOf(rows[0])] + ItemsOf(rows[1..], orderId);
      } else {
        assert RowsOf(rows, orderId) == RowsOf(rows[1..], orderId);
      }
    }
  }

  const LoadFailed := "Failed to load order details"
  const NotFound := "Order not found"

  datatype Result<T> = Ok(value: T) | Err(message: string)

  /** What `fetchOrder` ends with: the order to show or the error to set. */
  function LoadResult(orders: seq<Database.OrderRow>, orderId: string, userId: string,
                      itemsOk: bool, itemRows: seq<ItemRow>, draw: nat): (r: Result<OrderView>)
    requires draw < TrackingDraws && ItemsWellJoined(itemRows)
    ensures r.Err? ==> r.message == LoadFailed
    ensures r.Ok? <==> |OrdersMatching(orders, orderId, userId)| == 1 && itemsOk
    ensures r.Ok? ==> && r.value.row == OrdersMatching(orders, orderId, userId)[0]
                      && r.value.items == ItemsOf(itemRows, orderId)
                      && r.value.trackingNumber == TrackingNumber(draw)
  {
    var resp := Single(OrdersMatching(orders, orderId, userId));
    if resp.error then Err(LoadFailed)
    else if resp.data.None? then Err(NotFound)
    else if !itemsOk then Err(LoadFailed)
    else
      var o := resp.data.value;
      Ok(OrderView(o, ItemsOf(itemRows, orderId),
                   EstimatedDelivery(o.createdDay, o.shippingMethod), TrackingNumber(draw)))
  }

  /** A loaded order is the one requested, belongs to the signed-in user,
      carries only its own items, and has a real tracking number. */
  lemma LoadedOrderIsOwn(orders: seq<Database.OrderRow>, orderId: string, userId: string,
                         itemsOk: bool, itemRows: seq<ItemRow>, draw: nat)
    requires draw < TrackingDraws && ItemsWellJoined(itemRows)
    requires LoadResult(orders, orderId, userId, itemsOk, itemRows, draw).Ok?
    ensures var v := LoadResult(orders, orderId, userId, itemsOk, itemRows, draw).value;
            && v.row in orders && v.row.id == orderId && v.row.userId == userId
            && (forall it :: it in v.items ==> it.orderId == orderId)
            && v.estimatedDelivery == v.row.createdDay + DeliveryDays(v.row.shippingMethod)
            && TrackingDisplay(v.trackingNumber) == v.trackingNumber
  {
    var m := OrdersMatching(orders, orderId, userId);
    assert m[0] in m;
  }

  /** An order of another user, or no order at all, is never shown; the
      page then reports a load failure and not "Order not found", because
      zero rows are an error of `single`. */
  lemma MissingOrderReportsLoadFailure(orders: seq<Database.OrderRow>, orderId: string, userId: string,
                                       itemsOk: bool, itemRows: seq<ItemRow>, draw: nat)
    requires draw < TrackingDraws && ItemsWellJoined(itemRows)
    requires forall o :: o in orders ==> o.id != orderId || o.userId != userId
    ensures LoadResult(orders, orderId, userId, itemsOk, itemRows, draw) == Err(LoadFailed)
  {
  }

  /** The headline of the error view: `error || "Order not found"`. */
  function ErrorHeadline(error: Option<string>): (h: string)
    ensures error.Some? && error.value != "" ==> h == error.value
    ensures error.None? || error.value == "" ==> h == NotFound
  {
    if error.Some? && error.value != "" then error.value else NotFound
  }

  class Page {
    var order: Option<OrderView>
    var isLoading: bool
    var error: Option<string>

    constructor ()
      ensures order.None? && isLoading && error.None?
    {
      order := None;
      isLoading := true;
      error := None;
    }

    /** `fetchOrder`: without a user or an order id nothing happens;
        otherwise the page ends not loading, with the order shown or the
        error set. A failed load keeps the previous order value. */
    method Fetch(signedIn: bool, userId: string, orderId: string, orders: seq<Database.OrderRow>,
                 itemsOk: bool, itemRows: seq<ItemRow>, draw: nat)
      requires draw < TrackingDraws && ItemsWellJoined(itemRows)
      modifies this
      ensures !signedIn || orderId == "" ==>
                order == old(order) && isLoading == old(isLoading) && error == old(error)
      ensures signedIn && orderId != "" ==>
                var r := LoadResult(orders, orderId, userId, itemsOk, itemRows, draw);
                && !isLoading
                && (r.Ok? ==> order == Some(r.value) && error.None?)
                && (r.Err? ==> order == old(order) && error == Some(r.message))
    {
      if !signedIn || orderId == "" {
        return;
      }
      isLoading := true;
      error := None;
      var resp := Single(OrdersMatching(orders, orderId, userId));
      if resp.error {
        error := Some(LoadFailed);
        isLoading := false;
        return;
      }
      if resp.data.None? {
        // `!orderData`: `single` never yields no data without an error
        assert false;
      }
      if !itemsOk {
        error := Some(LoadFailed);
        isLoading := false;
        return;
      }
      var o := resp.data.value;
      var items := ItemsOf(itemRows, orderId);
      order := Some(OrderView(o, items, EstimatedDelivery(o.createdDay, o.shippingMethod),
                              TrackingNumber(draw)));
      isLoading := false;
    }
  }
}
