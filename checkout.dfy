/** Checkout: pricing of the cart (subtotal, tiered shipping, 7% tax,
    total), validation of the form, the order-item snapshot and the
    order-placement sequence: insert the order, insert its items, clear the
    cart, update the profile. Each write runs only after the previous one
    succeeded and nothing already written is undone when a later one fails. */
module Checkout {
  import SC = ShoppingCart
  import opened Database
  import Seqs

  // ---------------------------------------------------------------------
  // Pricing

  /** `calculateShippingCost`: express and priority are flat fees; standard
      and every other method ship free above a subtotal of 50. */
  function ShippingCost(shipping: string, subtotal: real): (cost: real)
    ensures shipping == "express" ==> cost == 15.99
    ensures shipping == "priority" ==> cost == 9.99
    ensures shipping != "express" && shipping != "priority" ==>
              cost == (if subtotal > 50.0 then 0.0 else 4.99)
  {
    match shipping
    case "express" => 15.99
    case "priority" => 9.99
    case _ => if subtotal > 50.0 then 0.0 else 4.99
  }

  /** `calculateTax`: 7% of the subtotal. */
  function Tax(subtotal: real): real
  {
    subtotal * 0.07
  }

  /** `calculateTotal`, the amount shown to the buyer and stored on the order. */
  function Total(items: seq<SC.CartItem>, shipping: string): (t: real)
    ensures SC.Subtotal(items) >= 0.0 ==> t >= SC.Subtotal(items) + Tax(SC.Subtotal(items)) >= SC.Subtotal(items)
  {
    SC.Subtotal(items) + ShippingCost(shipping, SC.Subtotal(items)) + Tax(SC.Subtotal(items))
  }

  /** The free-shipping threshold is strict: a subtotal of exactly 50 pays. */
  lemma StandardShippingBoundary()
    ensures ShippingCost("standard", 50.0) == 4.99
    ensures ShippingCost("standard", 50.01) == 0.0
    ensures ShippingCost("overnight", 10.0) == 4.99
  {
  }

  /** The standard fee does not grow with the subtotal. */
  lemma StandardShippingMonotone(shipping: string, a: real, b: real)
    requires shipping != "express" && shipping != "priority"
    requires a <= b
    ensures ShippingCost(shipping, b) <= ShippingCost(shipping, a)
  {
  }

  /** A worked total: 2 x 2500 + 1 x 1200 ships free by standard and pays
      434 of tax, for 6634 in all. */
  lemma ScenarioTotal(a: SC.Product, b: SC.Product, l1: SC.CartItem, l2: SC.CartItem)
    requires a.price == 2500.0 && b.price == 1200.0
    requires l1.product == a && l1.quantity == 2 && l2.product == b && l2.quantity == 1
    ensures SC.Subtotal([l1, l2]) == 6200.0
    ensures Total([l1, l2], "standard") == 6634.0
  {
    assert [l1, l2][1..] == [l2];
    assert [l2][1..] == [];
    assert SC.Subtotal([l2]) == 1200.0;
  }

  // ---------------------------------------------------------------------
  // The form

  datatype Form = Form(firstName: string, lastName: string, email: string, phone: string,
                       address: string, city: string, state: string, zipCode: string,
                       country: string, cardNumber: string, cardName: string,
                       expiryDate: string, cvv: string, notes: string)

  /** The form's initial state. */
  const InitialForm := Form("", "", "", "", "", "", "", "", "United States", "", "", "", "", "")

  /** The fields the validation requires, in the order they are reported. */
  datatype Field = FirstName | LastName | Email | Phone | Address | City | State | ZipCode | Country

  const RequiredFields: seq<Field> :=
    [FirstName, LastName, Email, Phone, Address, City, State, ZipCode, Country]

  /** The key a field has in the form state, as shown in the message. */
  function FieldKey(field: Field): string
  {
    match field
    case FirstName => "firstName"
    case LastName => "lastName"
    case Email => "email"
    case Phone => "phone"
    case Address => "address"
    case City => "city"
    case State => "state"
    case ZipCode => "zipCode"
    case Country => "country"
  }

  function FieldValue(f: Form, field: Field): string
  {
    match field
    case FirstName => f.firstName
    case LastName => f.lastName
    case Email => f.email
    case Phone => f.phone
    case Address => f.address
    case City => f.city
    case State => f.state
    case ZipCode => f.zipCode
    case Country => f.country
  }

  /** The fields among `fields` whose value is empty, in the order of `fields`. */
  function EmptyAmong(f: Form, fields: seq<Field>): (r: seq<Field>)
    ensures |r| <= |fields|
  {
    if fields == [] then []
    else (if FieldValue(f, fields[0]) == "" then [fields[0]] else []) + EmptyAmong(f, fields[1..])
  }

  /** The field filter is `filter` with the emptiness test. */
  lemma {:induction false} EmptyAmongIsFilter(f: Form, fields: seq<Field>)
    ensures EmptyAmong(f, fields) == Seqs.Filter(field => FieldValue(f, field) == "", fields)
  {
    if fields != [] {
      EmptyAmongIsFilter(f, fields[1..]);
    }
  }

  /** Where a field stands in `RequiredFields`. */
  function RequiredIndex(field: Field): (i: nat)
    ensures i < |RequiredFields| && RequiredFields[i] == field
  {
    match field
    case FirstName => 0
    case LastName => 1
    case Email => 2
    case Phone => 3
    case Address => 4
    case City => 5
    case State => 6
    case ZipCode => 7
    case Country => 8
  }

  /** `missingFields`, as keys of the form state. */
  function MissingFields(f: Form): seq<string>
  {
    Keys(EmptyAmong(f, RequiredFields))
  }

  function Keys(fields: seq<Field>): (r: seq<string>)
    ensures |r| == |fields|
    ensures forall i :: 0 <= i < |fields| ==> r[i] == FieldKey(fields[i])
  {
    if fields == [] then [] else [FieldKey(fields[0])] + Keys(fields[1..])
  }

  /** The missing fields are exactly the required ones with an empty
      value, and they come in the listed order. */
  lemma MissingInListedOrder(f: Form)
    ensures forall n :: n in EmptyAmong(f, RequiredFields) <==> FieldValue(f, n) == ""
    ensures Seqs.Subsequence(EmptyAmong(f, RequiredFields), RequiredFields)
  {
    forall n ensures n in RequiredFields {
      assert n == RequiredFields[RequiredIndex(n)];
    }
    EmptyAmongIsFilter(f, RequiredFields);
    Seqs.FilterKeepsOrder(field => FieldValue(f, field) == "", RequiredFields);
  }

  /** No field is missing exactly when all nine required fields are filled. */
  lemma NoMissingFields(f: Form)
    ensures MissingFields(f) == [] <==>
              f.firstName != "" && f.lastName != "" && f.email != "" && f.phone != ""
              && f.address != "" && f.city != "" && f.state != "" && f.zipCode != "" && f.country != ""
  {
    MissingInListedOrder(f);
    var e := EmptyAmong(f, RequiredFields);
    assert |MissingFields(f)| == |e|;
    if e != [] {
      assert e[0] in e;
    } else {
      assert FirstName !in e && LastName !in e && Email !in e && Phone !in e && Address !in e;
      assert City !in e && State !in e && ZipCode !in e && Country !in e;
    }
  }

  /** An empty address alone is reported as `["address"]`. */
  lemma OnlyAddressMissing(f: Form)
    requires f.address == ""
    requires f.firstName != "" && f.lastName != "" && f.email != "" && f.phone != ""
    requires f.city != "" && f.state != "" && f.zipCode != "" && f.country != ""
    ensures MissingFields(f) == ["address"]
  {
    var r := RequiredFields;
    assert EmptyAmong(f, r[9..]) == [];
    assert EmptyAmong(f, r[8..]) == [];
    assert EmptyAmong(f, r[7..]) == [];
    assert EmptyAmong(f, r[6..]) == [];
    assert EmptyAmong(f, r[5..]) == [];
    assert EmptyAmong(f, r[4..]) == [Address];
    assert EmptyAmong(f, r[3..]) == [Address];
    assert EmptyAmong(f, r[2..]) == [Address];
    assert EmptyAmong(f, r[1..]) == [Address];
  }

  /** A credit-card payment needs all four card fields; PayPal needs none. */
  predicate PaymentIncomplete(paymentMethod: string, f: Form) {
    paymentMethod == "credit_card"
    && (f.cardNumber == "" || f.cardName == "" || f.expiryDate == "" || f.cvv == "")
  }

  function ShippingAddress(f: Form): string {
    f.address + ", " + f.city + ", " + f.state + " " + f.zipCode + ", " + f.country
  }

  function RecipientName(f: Form): string {
    f.firstName + " " + f.lastName
  }

  // ---------------------------------------------------------------------
  // Rows written by the placement

  /** The order items: one per cart line, in order, at the live price. */
  function OrderItems(orderId: string, items: seq<SC.CartItem>): (r: seq<OrderItemRow>)
    ensures |r| == |items|
    ensures forall i :: 0 <= i < |items| ==>
              r[i] == OrderItemRow(orderId, items[i].productId, items[i].quantity, items[i].product.price)
  {
    if items == [] then []
    else [OrderItemRow(orderId, items[0].productId, items[0].quantity, items[0].product.price)]
           + OrderItems(orderId, items[1..])
  }

  /** Sum of `price_per_unit * quantity` over order items. */
  function ItemsTotal(rows: seq<OrderItemRow>): real
  {
    if rows == [] then 0.0 else rows[0].pricePerUnit * rows[0].quantity as real + ItemsTotal(rows[1..])
  }

  /** The snapshot prices add up to the cart subtotal the buyer saw. */
  lemma {:induction false} SnapshotMatchesSubtotal(orderId: string, items: seq<SC.CartItem>)
    ensures ItemsTotal(OrderItems(orderId, items)) == SC.Subtotal(items)
  {
    if items != [] {
      SnapshotMatchesSubtotal(orderId, items[1..]);
      assert OrderItems(orderId, items)[1..] == OrderItems(orderId, items[1..]);
    }
  }

  /** The order header written by step one: the buyer's order, pending,
      at the total the summary showed. */
  function NewOrder(orderId: string, userId: string, f: Form, items: seq<SC.CartItem>,
                    shippingMethod: string, paymentMethod: string, createdDay: int): (o: OrderRow)
    ensures o.id == orderId && o.userId == userId && o.status == "pending"
    ensures o.totalAmount == Total(items, shippingMethod)
    ensures o.shippingMethod == shippingMethod && o.paymentMethod == paymentMethod
  {
    OrderRow(orderId, userId, "pending", Total(items, shippingMethod), ShippingAddress(f),
             shippingMethod, paymentMethod, f.notes, f.email, f.phone, RecipientName(f), createdDay)
  }

  /** The stored total is the snapshot sum plus shipping and tax on it. */
  lemma StoredTotalFromItems(orderId: string, userId: string, f: Form, items: seq<SC.CartItem>,
                             shippingMethod: string, paymentMethod: string, createdDay: int)
    ensures var o := NewOrder(orderId, userId, f, items, shippingMethod, paymentMethod, createdDay);
            var s := ItemsTotal(OrderItems(orderId, items));
            o.totalAmount == s + ShippingCost(shippingMethod, s) + Tax(s)
  {
    SnapshotMatchesSubtotal(orderId, items);
  }

  /** The profile columns the placement saves from the form. */
  function ProfileFromForm(f: Form): Profile {
    Profile(f.firstName, f.lastName, f.phone, f.address, f.city, f.state, f.zipCode, f.country)
  }

  /** Saving the form to the profile and prefilling a later form from it
      gives back the buyer's name, phone and address; a blank country comes
      back as "United States". */
  lemma ProfileRoundTrip(f: Form, later: Form, userEmail: string)
    ensures var r := Prefill(later, ProfileFromForm(f), userEmail);
            && r.firstName == f.firstName && r.lastName == f.lastName && r.phone == f.phone
            && r.address == f.address && r.city == f.city && r.state == f.state && r.zipCode == f.zipCode
            && r.country == (if f.country == "" then "United States" else f.country)
  {
  }

  /** `update(...).eq('id', userId)` touches the profile only when it exists. */
  function UpdateProfile(profiles: map<string, Profile>, userId: string, p: Profile): (r: map<string, Profile>)
    ensures r.Keys == profiles.Keys
    ensures userId in profiles ==> r[userId] == p
    ensures forall u :: u in profiles && u != userId ==> r[u] == profiles[u]
  {
    if userId in profiles then profiles[userId := p] else profiles
  }

  /** The prefill from the stored profile; absent columns read as "", an
      absent country as "United States", and the email comes from the
      signed-in user. */
  function Prefill(f: Form, p: Profile, userEmail: string): (r: Form)
    ensures r.cardNumber == f.cardNumber && r.cardName == f.cardName && r.expiryDate == f.expiryDate
    ensures r.cvv == f.cvv && r.notes == f.notes
    ensures r.firstName == p.firstName && r.lastName == p.lastName && r.phone == p.phone
    ensures r.address == p.address && r.city == p.city && r.state == p.state
    ensures r.email == userEmail && r.zipCode == p.postalCode
    ensures r.country == (if p.country == "" then "United States" else p.country)
  {
    f.(firstName := p.firstName, lastName := p.lastName, email := userEmail, phone := p.phone,
       address := p.address, city := p.city, state := p.state, zipCode := p.postalCode,
       country := if p.country == "" then "United States" else p.country)
  }

  // ---------------------------------------------------------------------
  // The placement

  datatype Step = InsertOrder | InsertItems | ClearCart | SaveProfile

  datatype Outcome =
    | NotSignedIn
    | MissingInformation(fields: seq<string>)
    | MissingPayment
    | Failed(step: Step)
    | Placed(orderId: string)

  /** The checks `handleSubmitOrder` makes before any write. */
  function Validate(signedIn: bool, f: Form, paymentMethod: string): (r: Outcome)
    ensures r.NotSignedIn? <==> !signedIn
    ensures r.MissingInformation? <==> signedIn && MissingFields(f) != []
    ensures r.MissingInformation? ==> r.fields == MissingFields(f)
    ensures r.MissingPayment? <==> signedIn && MissingFields(f) == [] && PaymentIncomplete(paymentMethod, f)
    ensures r.Placed? <==> signedIn && MissingFields(f) == [] && !PaymentIncomplete(paymentMethod, f)
    ensures !r.Failed?
  {
    if !signedIn then NotSignedIn
    else if MissingFields(f) != [] then MissingInformation(MissingFields(f))
    else if PaymentIncomplete(paymentMethod, f) then MissingPayment
    else Placed("")
  }

  /** The checkout page's own state. */
  class Page {
    var cartItems: seq<SC.CartItem>
    var form: Form
    var paymentMethod: string
    var shippingMethod: string
    var isSubmitting: bool

    constructor ()
      ensures cartItems == [] && form == InitialForm
      ensures paymentMethod == "credit_card" && shippingMethod == "standard" && !isSubmitting
    {
      cartItems := [];
      form := InitialForm;
      paymentMethod := "credit_card";
      shippingMethod := "standard";
      isSubmitting := false;
    }

    /** `fetchCartItems`: a failed or empty load keeps the page's list (the
        empty case sends the buyer away); `leave` reports that redirect. */
    method LoadCart(signedIn: bool, ok: bool, data: seq<SC.CartItem>) returns (leave: bool)
      modifies this
      ensures leave <==> signedIn && ok && data == []
      ensures signedIn && ok && data != [] ==> cartItems == data
      ensures !(signedIn && ok && data != []) ==> cartItems == old(cartItems)
      ensures form == old(form) && paymentMethod == old(paymentMethod)
      ensures shippingMethod == old(shippingMethod) && isSubmitting == old(isSubmitting)
    {
      leave := false;
      if !signedIn || !ok {
        return;
      }
      if data == [] {
        leave := true;
        return;
      }
      cartItems := data;
    }

    /** `handleSubmitOrder`. The store's answers come in as parameters: the
        id and creation day it gives the new order and whether each of the
        four writes succeeds. */
    method SubmitOrder(userId: string, signedIn: bool, store: Store, newOrderId: string, createdDay: int,
                       orderOk: bool, itemsOk: bool, clearOk: bool, profileOk: bool)
      returns (outcome: Outcome)
      modifies this, store
      ensures cartItems == old(cartItems) && form == old(form)
      ensures paymentMethod == old(paymentMethod) && shippingMethod == old(shippingMethod)
      ensures var v := Validate(signedIn, old(form), old(paymentMethod));
              && (!v.Placed? ==> outcome == v && isSubmitting == old(isSubmitting))
              && (v.Placed? ==> !isSubmitting)
              && (v.Placed? && !orderOk <==> outcome == Failed(InsertOrder))
              && (v.Placed? && orderOk && !itemsOk <==> outcome == Failed(InsertItems))
              && (v.Placed? && orderOk && itemsOk && !clearOk <==> outcome == Failed(ClearCart))
              && (v.Placed? && orderOk && itemsOk && clearOk && !profileOk <==> outcome == Failed(SaveProfile))
              && (v.Placed? && orderOk && itemsOk && clearOk && profileOk <==> outcome == Placed(newOrderId))
              && store.orders == (if v.Placed? && orderOk
                                  then old(store.orders) + [NewOrder(newOrderId, userId, old(form), old(cartItems),
                                                                     old(shippingMethod), old(paymentMethod), createdDay)]
                                  else old(store.orders))
              && store.orderItems == (if v.Placed? && orderOk && itemsOk
                                      then old(store.orderItems) + OrderItems(newOrderId, old(cartItems))
                                      else old(store.orderItems))
              && store.cartItems == (if v.Placed? && orderOk && itemsOk && clearOk
                                     then WithoutUser(old(store.cartItems), userId)
                                     else old(store.cartItems))
              && store.profiles == (if v.Placed? && orderOk && itemsOk && clearOk && profileOk
                                    then UpdateProfile(old(store.profiles), userId, ProfileFromForm(old(form)))
                                    else old(store.profiles))
    {
      var v := Validate(signedIn, form, paymentMethod);
      if !v.Placed? {
        return v;
      }
      isSubmitting := true;
      if !orderOk {
        isSubmitting := false;
        return Failed(InsertOrder);
      }
      store.orders := store.orders
        + [NewOrder(newOrderId, userId, form, cartItems, shippingMethod, paymentMethod, createdDay)];
      if !itemsOk {
        isSubmitting := false;
        return Failed(InsertItems);
      }
      store.orderItems := store.orderItems + OrderItems(newOrderId, cartItems);
      if !clearOk {
        isSubmitting := false;
        return Failed(ClearCart);
      }
      store.cartItems := WithoutUser(store.cartItems, userId);
      if !profileOk {
        isSubmitting := false;
        return Failed(SaveProfile);
      }
      store.profiles := UpdateProfile(store.profiles, userId, ProfileFromForm(form));
      isSubmitting := false;
      outcome := Placed(newOrderId);
    }
  }

  /** A failed item insert leaves the order header in place and the cart
      untouched: nothing is compensated. */
  method OrphanedOrderScenario(f: Form, line: SC.CartItem, cartRow: CartRow)
    returns (outcome: Outcome, orders: seq<OrderRow>, orderItems: seq<OrderItemRow>, cart: seq<CartRow>)
    requires MissingFields(f) == [] && !PaymentIncomplete("credit_card", f)
    ensures outcome == Failed(InsertItems)
    ensures |orders| == 1 && orders[0].id == "o1" && orders[0].status == "pending"
    ensures orderItems == [] && cart == [cartRow]
  {
    var store := new Store([cartRow], map[]);
    var page := new Page();
    page.form := f;
    page.cartItems := [line];
    outcome := page.SubmitOrder("u1", true, store, "o1", 0, true, false, true, true);
    orders, orderItems, cart := store.orders, store.orderItems, store.cartItems;
  }
}
