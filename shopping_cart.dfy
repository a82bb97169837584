/** The shopping-cart drawer: the signed-in user's cart lines, joined with
    their products, and a badge count that the handlers keep up to date by
    adding and subtracting quantities instead of recounting. The store is
    abstract: every read or write arrives as its outcome. */
module ShoppingCart {

  import opened Query
  import Seqs
  import Database

  /** The product columns the cart query joins in. */
  datatype Product = Product(id: string, name: string, price: real, images: seq<string>, stockQuantity: int)

  datatype CartItem = CartItem(id: string, productId: string, userId: string, quantity: int,
                               createdAt: string, product: Product)

  datatype CartRow = CartRow(id: string, productId: string, userId: string, quantity: int,
                             createdAt: string, joined: Joined<Product>)

  /** The load's normalisation: every row with its product embedded. */
  function Normalize(rows: seq<CartRow>): (items: seq<CartItem>)
    requires forall i :: 0 <= i < |rows| ==> WellJoined(rows[i].joined)
    ensures |items| == |rows|
    ensures forall i :: 0 <= i < |rows| ==>
              items[i] == CartItem(rows[i].id, rows[i].productId, rows[i].userId, rows[i].quantity,
                                   rows[i].createdAt, Embedded(rows[i].joined))
  {
    if rows == [] then []
    else
      var r := rows[0];
      [CartItem(r.id, r.productId, r.userId, r.quantity, r.createdAt, Embedded(r.joined))]
        + Normalize(rows[1..])
  }

  // ---------------------------------------------------------------------
  // Specification functions over a list of cart lines

  /** Sum of the quantities of the lines (the load's `reduce`). */
  function SumQuantities(items: seq<CartItem>): int
  {
    if items == [] then 0 else items[0].quantity + SumQuantities(items[1..])
  }

  /** `calculateTotal`: the sum of live product price times quantity. */
  function Subtotal(items: seq<CartItem>): real
  {
    if items == [] then 0.0 else items[0].product.price * items[0].quantity as real + Subtotal(items[1..])
  }

  /** Lines with non-negative prices and quantities never total below 0. */
  lemma {:induction false} SubtotalNonNegative(items: seq<CartItem>)
    requires forall i :: 0 <= i < |items| ==> items[i].product.price >= 0.0 && items[i].quantity >= 0
    ensures Subtotal(items) >= 0.0
  {
    if items != [] {
      assert forall i :: 0 <= i < |items| - 1 ==> items[1..][i] == items[i + 1];
      SubtotalNonNegative(items[1..]);
      var x := items[0];
      assert x.product.price * x.quantity as real >= 0.0;
    }
  }

  ghost predicate DistinctRowIds(rows: seq<CartRow>) {
    forall i, j :: 0 <= i < j < |rows| ==> rows[i].id != rows[j].id
  }

  ghost predicate DistinctIds(items: seq<CartItem>) {
    forall i, j :: 0 <= i < j < |items| ==> items[i].id != items[j].id
  }

  predicate HasLine(items: seq<CartItem>, id: string) {
    exists i :: 0 <= i < |items| && items[i].id == id
  }

  /** `cartItems.find(item => item.id === id)`'s quantity, or 0 when absent. */
  function QuantityOf(items: seq<CartItem>, id: string): (q: int)
    ensures !HasLine(items, id) ==> q == 0
    ensures items != [] && items[0].id == id ==> q == items[0].quantity
  {
    if items == [] then 0 else if items[0].id == id then items[0].quantity else QuantityOf(items[1..], id)
  }

  /** `find` returns the first line with the id: its quantity is the one
      read. */
  lemma {:induction false} QuantityOfFirstMatch(items: seq<CartItem>, id: string, k: nat)
    requires k < |items| && items[k].id == id
    requires forall j :: 0 <= j < k ==> items[j].id != id
    ensures QuantityOf(items, id) == items[k].quantity
  {
    if k > 0 {
      assert forall j :: 0 <= j < k - 1 ==> items[1..][j] == items[j + 1];
      QuantityOfFirstMatch(items[1..], id, k - 1);
    }
  }

  /** The local `map` of a successful quantity update. */
  function SetQuantity(items: seq<CartItem>, id: string, q: int): (r: seq<CartItem>)
    ensures |r| == |items|
    ensures forall i :: 0 <= i < |items| && items[i].id != id ==> r[i] == items[i]
    ensures forall i :: 0 <= i < |items| && items[i].id == id ==> r[i] == items[i].(quantity := q)
  {
    if items == [] then []
    else [if items[0].id == id then items[0].(quantity := q) else items[0]] + SetQuantity(items[1..], id, q)
  }

  /** The local `filter` of a successful removal. */
  function RemoveLine(items: seq<CartItem>, id: string): (r: seq<CartItem>)
    ensures forall x :: x in r <==> x in items && x.id != id
    ensures |r| <= |items|
  {
    if items == [] then []
    else if items[0].id == id then RemoveLine(items[1..], id)
    else [items[0]] + RemoveLine(items[1..], id)
  }

  /** The `filter` keeps the remaining lines in the order the drawer shows
      them. */
  lemma {:induction false} RemoveLineKeepsOrder(items: seq<CartItem>, id: string)
    ensures Seqs.Subsequence(RemoveLine(items, id), items)
  {
    if items != [] {
      RemoveLineKeepsOrder(items[1..], id);
      var rest := RemoveLine(items[1..], id);
      if items[0].id != id {
        assert ([items[0]] + rest)[1..] == rest;
      } else {
        Seqs.SubsequenceSkip(rest, items);
      }
    }
  }

  // ---------------------------------------------------------------------
  // The drawer and the `cart_items` table

  /** The stored columns of the drawer's lines. */
  function Stored(items: seq<CartItem>): (r: seq<Database.CartRow>)
    ensures |r| == |items|
  {
    if items == [] then []
    else [Database.CartRow(items[0].id, items[0].userId, items[0].productId, items[0].quantity)]
           + Stored(items[1..])
  }

  lemma {:induction false} StoredAt(items: seq<CartItem>, i: int)
    requires 0 <= i < |items|
    ensures Stored(items)[i] == Database.CartRow(items[i].id, items[i].userId, items[i].productId, items[i].quantity)
  {
    if i > 0 {
      StoredAt(items[1..], i - 1);
    }
  }

  /** The stored columns of the rows the cart query returns. */
  function Columns(rows: seq<CartRow>): (r: seq<Database.CartRow>)
    ensures |r| == |rows|
  {
    if rows == [] then []
    else [Database.CartRow(rows[0].id, rows[0].userId, rows[0].productId, rows[0].quantity)]
           + Columns(rows[1..])
  }

  /** The load's normalisation changes only the embedded product: the
      stored columns come through as the query returned them. */
  lemma {:induction false} NormalizeKeepsColumns(rows: seq<CartRow>)
    requires forall i :: 0 <= i < |rows| ==> WellJoined(rows[i].joined)
    ensures Stored(Normalize(rows)) == Columns(rows)
  {
    if rows != [] {
      NormalizeKeepsColumns(rows[1..]);
    }
  }

  /** The drawer shows exactly the user's rows of the table, in table
      order. */
  ghost predicate Mirrors(items: seq<CartItem>, rows: seq<Database.CartRow>, userId: string) {
    Stored(items) == Database.OfUser(rows, userId)
  }

  lemma MirroredLinesAreOwn(items: seq<CartItem>, rows: seq<Database.CartRow>, userId: string)
    requires Mirrors(items, rows, userId)
    ensures forall i :: 0 <= i < |items| ==> items[i].userId == userId
  {
    Database.OfUserMembers(rows, userId);
    forall i | 0 <= i < |items| ensures items[i].userId == userId {
      StoredAt(items, i);
      assert Stored(items)[i] in Database.OfUser(rows, userId);
    }
  }

  lemma {:induction false} StoredRemoveLine(items: seq<CartItem>, id: string, userId: string)
    requires forall i :: 0 <= i < |items| ==> items[i].userId == userId
    ensures Stored(RemoveLine(items, id)) == Database.DeleteLine(Stored(items), id, userId)
  {
    if items != [] {
      StoredRemoveLine(items[1..], id, userId);
      var rest := Stored(items[1..]);
      var head := Database.CartRow(items[0].id, items[0].userId, items[0].productId, items[0].quantity);
      assert ([head] + rest)[0] == head && ([head] + rest)[1..] == rest;
    }
  }

  lemma {:induction false} StoredSetQuantity(items: seq<CartItem>, id: string, userId: string, q: int)
    requires forall i :: 0 <= i < |items| ==> items[i].userId == userId
    ensures Stored(SetQuantity(items, id, q)) == Database.WithQuantity(Stored(items), id, userId, q)
  {
    if items != [] {
      StoredSetQuantity(items[1..], id, userId, q);
      var rest := Stored(items[1..]);
      var head := Database.CartRow(items[0].id, items[0].userId, items[0].productId, items[0].quantity);
      assert ([head] + rest)[0] == head && ([head] + rest)[1..] == rest;
      var tail := SetQuantity(items[1..], id, q);
      var first := if items[0].id == id then items[0].(quantity := q) else items[0];
      assert SetQuantity(items, id, q) == [first] + tail;
      assert ([first] + tail)[0] == first && ([first] + tail)[1..] == tail;
    }
  }

  /** A delete that succeeded keeps the drawer in step with the table. */
  lemma RemoveKeepsMirror(items: seq<CartItem>, rows: seq<Database.CartRow>, id: string, userId: string)
    requires Mirrors(items, rows, userId)
    ensures Mirrors(RemoveLine(items, id), Database.DeleteLine(rows, id, userId), userId)
  {
    MirroredLinesAreOwn(items, rows, userId);
    StoredRemoveLine(items, id, userId);
    Database.OfUserDeleteLine(rows, id, userId);
  }

  /** An update that succeeded keeps the drawer in step with the table. */
  lemma UpdateKeepsMirror(items: seq<CartItem>, rows: seq<Database.CartRow>, id: string, userId: string, q: int)
    requires Mirrors(items, rows, userId)
    ensures Mirrors(SetQuantity(items, id, q), Database.WithQuantity(rows, id, userId, q), userId)
  {
    MirroredLinesAreOwn(items, rows, userId);
    StoredSetQuantity(items, id, userId, q);
    Database.OfUserWithQuantity(rows, id, userId, q);
  }

  /** The emptied drawer mirrors the table once the user's rows are deleted. */
  lemma ClearKeepsMirror(rows: seq<Database.CartRow>, userId: string)
    ensures Mirrors([], Database.WithoutUser(rows, userId), userId)
  {
    Database.WithoutUserLeavesNone(rows, userId);
  }

  // ---------------------------------------------------------------------
  // Lemmas: the incremental count agrees with the recount

  lemma {:induction false} SumAppend(a: seq<CartItem>, b: seq<CartItem>)
    ensures SumQuantities(a + b) == SumQuantities(a) + SumQuantities(b)
  {
    if a != [] {
      assert (a + b)[0] == a[0] && (a + b)[1..] == a[1..] + b;
      SumAppend(a[1..], b);
    } else {
      assert a + b == b;
    }
  }

  lemma {:induction false} SubtotalAppend(a: seq<CartItem>, b: seq<CartItem>)
    ensures Subtotal(a + b) == Subtotal(a) + Subtotal(b)
  {
    if a != [] {
      assert (a + b)[0] == a[0] && (a + b)[1..] == a[1..] + b;
      SubtotalAppend(a[1..], b);
    } else {
      assert a + b == b;
    }
  }

  lemma {:induction false} SetQuantityAbsent(items: seq<CartItem>, id: string, q: int)
    requires !HasLine(items, id)
    ensures SetQuantity(items, id, q) == items
  {
    if items != [] {
      assert !HasLine(items[1..], id) by {
        forall i | 0 <= i < |items| - 1 ensures items[1..][i].id != id {
          assert items[1..][i] == items[i + 1];
        }
      }
      SetQuantityAbsent(items[1..], id, q);
    }
  }

  lemma TailDistinct(items: seq<CartItem>)
    requires items != [] && DistinctIds(items)
    ensures DistinctIds(items[1..])
    ensures !HasLine(items[1..], items[0].id)
  {
    var rest := items[1..];
    forall i, j | 0 <= i < j < |rest| ensures rest[i].id != rest[j].id {
      assert rest[i] == items[i + 1] && rest[j] == items[j + 1];
    }
    forall i | 0 <= i < |rest| ensures rest[i].id != items[0].id {
      assert rest[i] == items[i + 1];
    }
  }

  /** Updating the quantity of a line that is present moves the sum by the
      difference, when the line ids are distinct (they are the store's
      primary keys). */
  lemma {:induction false} SumSetQuantity(items: seq<CartItem>, id: string, q: int)
    requires DistinctIds(items) && HasLine(items, id)
    ensures SumQuantities(SetQuantity(items, id, q)) == SumQuantities(items) - QuantityOf(items, id) + q
  {
    var rest := items[1..];
    TailDistinct(items);
    if items[0].id == id {
      SetQuantityAbsent(rest, id, q);
      assert SetQuantity(items, id, q) == [items[0].(quantity := q)] + rest;
    } else {
      assert HasLine(rest, id) by {
        var k :| 0 <= k < |items| && items[k].id == id;
        assert rest[k - 1] == items[k];
      }
      SumSetQuantity(rest, id, q);
    }
  }

  /** For an id that is not in the list the store update succeeds on no
      row and the list is unchanged, but the source's arithmetic still adds
      the new quantity to the count: count and recount then differ by `q`. */
  lemma AbsentUpdateDrifts(items: seq<CartItem>, id: string, q: int)
    requires !HasLine(items, id)
    ensures SumQuantities(items) - QuantityOf(items, id) + q == SumQuantities(SetQuantity(items, id, q)) + q
  {
    SetQuantityAbsent(items, id, q);
  }

  /** Removing a line lowers the sum by that line's quantity (0 when absent). */
  lemma {:induction false} SumRemoveLine(items: seq<CartItem>, id: string)
    requires DistinctIds(items)
    ensures SumQuantities(RemoveLine(items, id)) == SumQuantities(items) - QuantityOf(items, id)
  {
    if items != [] {
      var rest := items[1..];
      TailDistinct(items);
      if items[0].id == id {
        RemoveLineAbsent(rest, id);
      } else {
        SumRemoveLine(rest, id);
      }
    }
  }

  lemma {:induction false} RemoveLineAbsent(items: seq<CartItem>, id: string)
    requires !HasLine(items, id)
    ensures RemoveLine(items, id) == items
  {
    if items != [] {
      assert !HasLine(items[1..], id) by {
        forall i | 0 <= i < |items| - 1 ensures items[1..][i].id != id {
          assert items[1..][i] == items[i + 1];
        }
      }
      RemoveLineAbsent(items[1..], id);
    }
  }

  lemma {:induction false} RemoveLineDistinct(items: seq<CartItem>, id: string)
    requires DistinctIds(items)
    ensures DistinctIds(RemoveLine(items, id))
  {
    if items != [] {
      var rest := items[1..];
      TailDistinct(items);
      RemoveLineDistinct(rest, id);
      if items[0].id != id {
        var r := RemoveLine(rest, id);
        forall k | 0 <= k < |r| ensures r[k].id != items[0].id {
          assert r[k] in rest;
        }
      }
    }
  }

  lemma SetQuantityDistinct(items: seq<CartItem>, id: string, q: int)
    requires DistinctIds(items)
    ensures DistinctIds(SetQuantity(items, id, q))
  {
    var r := SetQuantity(items, id, q);
    forall i, j | 0 <= i < j < |r| ensures r[i].id != r[j].id {
      assert r[i].id == items[i].id && r[j].id == items[j].id;
    }
  }

  // ---------------------------------------------------------------------
  // UI affordances

  /** The "+" control is enabled only below the product's stock. */
  predicate PlusEnabled(item: CartItem, isLoading: bool) {
    !isLoading && item.quantity < item.product.stockQuantity
  }

  ghost predicate WithinStock(items: seq<CartItem>) {
    forall k :: 0 <= k < |items| ==> items[k].quantity <= items[k].product.stockQuantity
  }

  /** Pressing an enabled "+" keeps every line of the cart within its
      product's stock: the increment reaches only the pressed line. */
  lemma PlusKeepsWithinStock(items: seq<CartItem>, i: int, isLoading: bool)
    requires 0 <= i < |items| && DistinctIds(items) && WithinStock(items)
    requires PlusEnabled(items[i], isLoading)
    ensures WithinStock(SetQuantity(items, items[i].id, items[i].quantity + 1))
  {
    var r := SetQuantity(items, items[i].id, items[i].quantity + 1);
    forall k | 0 <= k < |r| ensures r[k].quantity <= r[k].product.stockQuantity {
      if k != i {
        assert items[k].id != items[i].id;
      }
    }
  }

  // ---------------------------------------------------------------------
  // The cart drawer's state

  class Cart {
    var items: seq<CartItem>
    var count: int

    /** The badge count is the sum of the quantities and the line ids
        (the store's primary keys) are distinct. */
    ghost predicate Valid()
      reads this
    {
      count == SumQuantities(items) && DistinctIds(items)
    }

    constructor ()
      ensures items == [] && count == 0 && Valid()
    {
      items := [];
      count := 0;
    }

    /** `calculateTotal`: the cart subtotal at live prices. */
    function Total(): real
      reads this
    {
      Subtotal(items)
    }

    /** The effect on signing out: the drawer empties. */
    method SignOut()
      modifies this
      ensures items == [] && count == 0 && Valid()
    {
      items := [];
      count := 0;
    }

    /** `fetchCartItems`: `rows` is the query's data (None for null).
        Rows with distinct ids, as the store's primary key guarantees, load
        into a valid drawer, and rows that are the user's rows of the table
        load into a drawer that mirrors it. The query only reads. */
    method Load(signedIn: bool, userId: string, store: Database.Store, ok: bool, rows: Option<seq<CartRow>>)
      requires rows.Some? ==> forall i :: 0 <= i < |rows.value| ==> WellJoined(rows.value[i].joined)
      modifies this
      ensures signedIn && ok && (rows.Some? ==> DistinctRowIds(rows.value)) ==> Valid()
      ensures !signedIn || !ok ==> items == old(items) && count == old(count)
      ensures signedIn && ok ==>
                items == Normalize(if rows.Some? then rows.value else [])
                && count == SumQuantities(items)
      ensures signedIn && ok
              && Columns(if rows.Some? then rows.value else []) == Database.OfUser(store.cartItems, userId)
              ==> Mirrors(items, store.cartItems, userId)
    {
      if !signedIn || !ok {
        return;
      }
      var data := if rows.Some? then rows.value else [];
      items := Normalize(data);
      count := SumQuantities(items);
      NormalizeKeepsColumns(data);
      assert DistinctRowIds(data) ==> DistinctIds(items) by {
        if DistinctRowIds(data) {
          forall i, j | 0 <= i < j < |items| ensures items[i].id != items[j].id {
            assert items[i].id == data[i].id && items[j].id == data[j].id;
          }
        }
      }
    }

    /** `removeCartItem`: the delete of the user's row with that id, then
        the local filter. `ok` is the delete's outcome. */
    method Remove(signedIn: bool, userId: string, id: string, store: Database.Store, ok: bool)
      requires Valid()
      modifies this, store`cartItems
      ensures Valid()
      ensures !signedIn || !ok ==>
                items == old(items) && count == old(count) && store.cartItems == old(store.cartItems)
      ensures signedIn && ok ==>
                items == RemoveLine(old(items), id)
                && count == old(count) - QuantityOf(old(items), id)
                && store.cartItems == Database.DeleteLine(old(store.cartItems), id, userId)
      ensures Mirrors(old(items), old(store.cartItems), userId) ==> Mirrors(items, store.cartItems, userId)
    {
      if !signedIn || !ok {
        return;
      }
      if Mirrors(items, store.cartItems, userId) {
        RemoveKeepsMirror(items, store.cartItems, id, userId);
      }
      store.cartItems := Database.DeleteLine(store.cartItems, id, userId);
      var removed := QuantityOf(items, id);
      SumRemoveLine(items, id);
      RemoveLineDistinct(items, id);
      items := RemoveLine(items, id);
      count := count - removed;
    }

    /** `updateCartItemQuantity`: a quantity of zero or less is a removal;
        otherwise the update of the user's row with that id, then the local
        map. The count stays the recount whenever the line is present (the
        only ids the drawer's controls pass); see `AbsentUpdateDrifts`. */
    method UpdateQuantity(signedIn: bool, userId: string, id: string, q: int, store: Database.Store, ok: bool)
      requires Valid()
      modifies this, store`cartItems
      ensures HasLine(old(items), id) || q <= 0 || !ok || !signedIn ==> Valid()
      ensures !signedIn || !ok ==>
                items == old(items) && count == old(count) && store.cartItems == old(store.cartItems)
      ensures signedIn && ok && q <= 0 ==>
                items == RemoveLine(old(items), id)
                && count == old(count) - QuantityOf(old(items), id)
                && store.cartItems == Database.DeleteLine(old(store.cartItems), id, userId)
      ensures signedIn && ok && q > 0 ==>
                items == SetQuantity(old(items), id, q)
                && count == old(count) - QuantityOf(old(items), id) + q
                && store.cartItems == Database.WithQuantity(old(store.cartItems), id, userId, q)
      ensures Mirrors(old(items), old(store.cartItems), userId) ==> Mirrors(items, store.cartItems, userId)
    {
      if !signedIn {
        return;
      }
      if q <= 0 {
        Remove(signedIn, userId, id, store, ok);
        return;
      }
      if !ok {
        return;
      }
      if Mirrors(items, store.cartItems, userId) {
        UpdateKeepsMirror(items, store.cartItems, id, userId, q);
      }
      store.cartItems := Database.WithQuantity(store.cartItems, id, userId, q);
      var oldQuantity := QuantityOf(items, id);
      SetQuantityDistinct(items, id, q);
      if HasLine(items, id) {
        SumSetQuantity(items, id, q);
      }
      items := SetQuantity(items, id, q);
      count := count - oldQuantity + q;
    }

    /** `clearCart`: nothing happens without a user or with an empty
        drawer; otherwise every row of the user is deleted, including any
        the drawer does not show. */
    method Clear(signedIn: bool, userId: string, store: Database.Store, ok: bool)
      requires Valid()
      modifies this, store`cartItems
      ensures Valid()
      ensures !signedIn || old(items) == [] || !ok ==>
                items == old(items) && count == old(count) && store.cartItems == old(store.cartItems)
      ensures signedIn && old(items) != [] && ok ==>
                items == [] && count == 0 && store.cartItems == Database.WithoutUser(old(store.cartItems), userId)
      ensures Mirrors(old(items), old(store.cartItems), userId) ==> Mirrors(items, store.cartItems, userId)
    {
      if !signedIn || items == [] {
        return;
      }
      if !ok {
        return;
      }
      ClearKeepsMirror(store.cartItems, userId);
      store.cartItems := Database.WithoutUser(store.cartItems, userId);
      items := [];
      count := 0;
    }
  }
}
