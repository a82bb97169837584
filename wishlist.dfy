/** The wishlist page: the signed-in user's saved products, removal of a
    saved item, and "Add to Cart", which raises the quantity of the user's
    existing cart line for the product or inserts a new line. */
module Wishlist {
  import opened Query
  import Seqs
  import Database

  /** A row of the `wishlist_items` table. */
  datatype Entry = Entry(id: string, userId: string, productId: string)

  /** The `wishlist_items` table. */
  class Table {
    var rows: seq<Entry>

    constructor (rows: seq<Entry>)
      ensures this.rows == rows
    {
      this.rows := rows;
    }
  }

  /** Rows with another id than `id`: `.delete().eq('id', id)` and the
      page's `filter(item => item.id !== id)` alike. */
  function WithoutEntry(rows: seq<Entry>, id: string): (r: seq<Entry>)
    ensures |r| <= |rows|
    ensures forall e :: e in r <==> e in rows && e.id != id
  {
    if rows == [] then []
    else (if rows[0].id != id then [rows[0]] else []) + WithoutEntry(rows[1..], id)
  }

  // ---------------------------------------------------------------------
  // The listed items

  datatype WishlistProduct = WishlistProduct(id: string, name: string, price: real, description: string,
                                             imageUrl: Option<string>, category: string, stockQuantity: int)

  /** A fetched row; the joined product may come back as an array. */
  datatype FetchedItem = FetchedItem(id: string, product: Joined<WishlistProduct>)

  datatype Item = Item(id: string, product: WishlistProduct)

  ghost predicate AllWellJoined(rows: seq<FetchedItem>) {
    forall i :: 0 <= i < |rows| ==> WellJoined(rows[i].product)
  }

  /** `(data || []).map(...)`: each row keeps its id, and an array-valued
      product is replaced by its first element. */
  function Normalize(data: Option<seq<FetchedItem>>): (r: seq<Item>)
    requires data.Some? ==> AllWellJoined(data.value)
    ensures data.None? ==> r == []
    ensures data.Some? ==> |r| == |data.value|
    ensures data.Some? ==> forall i :: 0 <= i < |r| ==>
              r[i].id == data.value[i].id && r[i].product == Embedded(data.value[i].product)
  {
    if data.None? then [] else NormalizeRows(data.value)
  }

  function NormalizeRows(rows: seq<FetchedItem>): (r: seq<Item>)
    requires AllWellJoined(rows)
    ensures |r| == |rows|
    ensures forall i :: 0 <= i < |r| ==> r[i].id == rows[i].id && r[i].product == Embedded(rows[i].product)
  {
    if rows == [] then [] else [Item(rows[0].id, Embedded(rows[0].product))] + NormalizeRows(rows[1..])
  }

  function WithoutItem(items: seq<Item>, id: string): (r: seq<Item>)
    ensures |r| <= |items|
    ensures forall x :: x in r <==> x in items && x.id != id
  {
    if items == [] then []
    else (if items[0].id != id then [items[0]] else []) + WithoutItem(items[1..], id)
  }

  /** Removal keeps the remaining items in their order. */
  lemma {:induction false} WithoutItemKeepsOrder(items: seq<Item>, id: string)
    ensures Seqs.Subsequence(WithoutItem(items, id), items)
  {
    if items != [] {
      WithoutItemKeepsOrder(items[1..], id);
      var rest := WithoutItem(items[1..], id);
      if items[0].id != id {
        assert ([items[0]] + rest)[1..] == rest;
      } else {
        assert WithoutItem(items, id) == rest;
        Seqs.SubsequenceSkip(rest, items);
      }
    }
  }

  /** `image_url || "/placeholder-product.jpg"`. */
  function ImageOf(p: WishlistProduct): (url: string)
    ensures url != ""
    ensures p.imageUrl.Some? && p.imageUrl.value != "" ==> url == p.imageUrl.value
  {
    if p.imageUrl.Some? && p.imageUrl.value != "" then p.imageUrl.value else "/placeholder-product.jpg"
  }

  /** The "Add to Cart" button is disabled exactly when nothing is in stock,
      and then reads "Out of Stock". */
  function CartButton(p: WishlistProduct): (r: (bool, string))
    ensures r.0 <==> p.stockQuantity < 1
    ensures r.1 == (if r.0 then "Out of Stock" else "Add to Cart")
  {
    if p.stockQuantity < 1 then (true, "Out of Stock") else (false, "Add to Cart")
  }

  // ---------------------------------------------------------------------
  // Add to cart

  predicate LineOf(r: Database.CartRow, userId: string, productId: string) {
    r.userId == userId && r.productId == productId
  }

  /** `.eq('user_id', userId).eq('product_id', productId)`. */
  function LinesOf(rows: seq<Database.CartRow>, userId: string, productId: string): (r: seq<Database.CartRow>)
    ensures |r| <= |rows|
    ensures forall x :: x in r <==> x in rows && LineOf(x, userId, productId)
  {
    if rows == [] then []
    else (if LineOf(rows[0], userId, productId) then [rows[0]] else []) + LinesOf(rows[1..], userId, productId)
  }

  /** `.update({ quantity: quantity + 1 }).eq('id', id)`. */
  function Bump(rows: seq<Database.CartRow>, id: string, quantity: int): (r: seq<Database.CartRow>)
    ensures |r| == |rows|
    ensures forall i :: 0 <= i < |r| ==>
              r[i] == if rows[i].id == id then rows[i].(quantity := quantity + 1) else rows[i]
  {
    if rows == [] then []
    else [if rows[0].id == id then rows[0].(quantity := quantity + 1) else rows[0]] + Bump(rows[1..], id, quantity)
  }

  /** The cart table after a successful `addToCart`. The lookup is a
      `maybeSingle` whose error is not consulted, so with two lines for the
      product it finds none and inserts a third. */
  function AfterAddToCart(rows: seq<Database.CartRow>, userId: string, productId: string,
                          newId: string): seq<Database.CartRow>
  {
    var existing := MaybeSingle(LinesOf(rows, userId, productId)).data;
    if existing.Some? then Bump(rows, existing.value.id, existing.value.quantity)
    else rows + [Database.CartRow(newId, userId, productId, 1)]
  }

  /** How many of the product the user has in the cart, over all lines. */
  function QuantityOf(rows: seq<Database.CartRow>, userId: string, productId: string): int {
    if rows == [] then 0
    else (if LineOf(rows[0], userId, productId) then rows[0].quantity else 0) + QuantityOf(rows[1..], userId, productId)
  }

  ghost predicate DistinctIds(rows: seq<Database.CartRow>) {
    forall i, j :: 0 <= i < j < |rows| ==> rows[i].id != rows[j].id
  }

  lemma {:induction false} QuantityOfAppend(rows: seq<Database.CartRow>, x: Database.CartRow,
                                            userId: string, productId: string)
    ensures QuantityOf(rows + [x], userId, productId)
            == QuantityOf(rows, userId, productId) + (if LineOf(x, userId, productId) then x.quantity else 0)
  {
    if rows != [] {
      assert (rows + [x])[1..] == rows[1..] + [x];
      QuantityOfAppend(rows[1..], x, userId, productId);
    } else {
      assert [x][1..] == [];
    }
  }

  /** Bumping one line (ids being distinct) raises the quantity of exactly
      that line's product for that line's user. */
  lemma {:induction false} BumpQuantity(rows: seq<Database.CartRow>, e: Database.CartRow,
                                        userId: string, productId: string)
    requires DistinctIds(rows) && e in rows
    ensures QuantityOf(Bump(rows, e.id, e.quantity), userId, productId)
            == QuantityOf(rows, userId, productId) + (if LineOf(e, userId, productId) then 1 else 0)
  {
    var b := Bump(rows, e.id, e.quantity);
    DistinctTail(rows);
    assert b[1..] == Bump(rows[1..], e.id, e.quantity);
    if rows[0] == e {
      BumpAbsent(rows[1..], e.id, e.quantity);
    } else {
      assert e in rows[1..];
      BumpQuantity(rows[1..], e, userId, productId);
    }
  }

  /** The rows after the first keep distinct ids, all other than the
      first's. */
  lemma DistinctTail(rows: seq<Database.CartRow>)
    requires DistinctIds(rows) && rows != []
    ensures DistinctIds(rows[1..])
    ensures forall r :: r in rows[1..] ==> r.id != rows[0].id
  {
    forall r | r in rows[1..] ensures r.id != rows[0].id {
      var j :| 0 <= j < |rows[1..]| && rows[1..][j] == r;
      assert rows[j + 1] == r;
    }
  }

  /** A bump of an id no row has changes nothing. */
  lemma BumpAbsent(rows: seq<Database.CartRow>, id: string, quantity: int)
    requires forall r :: r in rows ==> r.id != id
    ensures Bump(rows, id, quantity) == rows
  {
    var b := Bump(rows, id, quantity);
    forall i | 0 <= i < |rows| ensures b[i] == rows[i] {
      assert rows[i] in rows;
    }
  }

  /** `addToCart` adds exactly one of the product to the user's cart,
      whatever lines it had, with no stock cap, and leaves every other
      (user, product) quantity as it was. */
  lemma AddToCartAddsOne(rows: seq<Database.CartRow>, userId: string, productId: string, newId: string,
                         u: string, p: string)
    requires DistinctIds(rows)
    ensures QuantityOf(AfterAddToCart(rows, userId, productId, newId), u, p)
            == QuantityOf(rows, u, p) + (if u == userId && p == productId then 1 else 0)
  {
    var m := LinesOf(rows, userId, productId);
    if |m| == 1 {
      assert m[0] in m;
      BumpQuantity(rows, m[0], u, p);
    } else {
      QuantityOfAppend(rows, Database.CartRow(newId, userId, productId, 1), u, p);
    }
  }

  /** With an existing line the cart keeps its lines and their order, and
      only that line changes, to one more than before. */
  lemma ExistingLineIsBumped(rows: seq<Database.CartRow>, userId: string, productId: string, newId: string)
    requires DistinctIds(rows) && |LinesOf(rows, userId, productId)| == 1
    ensures var e := LinesOf(rows, userId, productId)[0];
            var r := AfterAddToCart(rows, userId, productId, newId);
            && |r| == |rows|
            && forall i :: 0 <= i < |rows| ==>
                 r[i] == if rows[i] == e then e.(quantity := e.quantity + 1) else rows[i]
  {
    var e := LinesOf(rows, userId, productId)[0];
    assert e in LinesOf(rows, userId, productId);
    var k :| 0 <= k < |rows| && rows[k] == e;
    forall i | 0 <= i < |rows| && rows[i].id == e.id ensures rows[i] == e {
      assert i == k;
    }
  }

  /** Without a line for the product, one line with quantity 1 is appended. */
  lemma NoLineIsInserted(rows: seq<Database.CartRow>, userId: string, productId: string, newId: string)
    requires LinesOf(rows, userId, productId) == []
    ensures AfterAddToCart(rows, userId, productId, newId) == rows + [Database.CartRow(newId, userId, productId, 1)]
  {
  }

  /** A fresh id keeps the line ids distinct. */
  lemma AddToCartKeepsIdsDistinct(rows: seq<Database.CartRow>, userId: string, productId: string, newId: string)
    requires DistinctIds(rows) && forall r :: r in rows ==> r.id != newId
    ensures DistinctIds(AfterAddToCart(rows, userId, productId, newId))
  {
    var m := LinesOf(rows, userId, productId);
    if |m| != 1 {
      var r := rows + [Database.CartRow(newId, userId, productId, 1)];
      forall i, j | 0 <= i < j < |r| ensures r[i].id != r[j].id {
        if j == |rows| {
          assert r[i] in rows;
        }
      }
    }
  }

  /** What the user is told. */
  datatype Toast = AuthenticationRequired | Removed | RemoveFailed | AddedToCart | AddFailed

  class Page {
    var items: seq<Item>
    var loading: bool

    constructor ()
      ensures items == [] && loading
    {
      items := [];
      loading := true;
    }

    /** The effect on the user: without one, loading stops; with one, the
        fetched rows replace the list. The query's error is not consulted,
        so a failed fetch shows an empty wishlist. */
    method Load(signedIn: bool, data: Option<seq<FetchedItem>>)
      requires data.Some? ==> AllWellJoined(data.value)
      modifies this
      ensures !loading
      ensures signedIn ==> items == Normalize(data)
      ensures !signedIn ==> items == old(items)
    {
      if signedIn {
        loading := true;
        items := Normalize(data);
      }
      loading := false;
    }

    /** `removeFromWishlist`: on success the row is deleted and the item
        dropped from the list; on error neither changes. */
    method Remove(table: Table, wishlistItemId: string, ok: bool) returns (t: Toast)
      modifies this, table
      ensures ok ==> table.rows == WithoutEntry(old(table.rows), wishlistItemId)
      ensures ok ==> items == WithoutItem(old(items), wishlistItemId) && t == Removed
      ensures !ok ==> table.rows == old(table.rows) && items == old(items) && t == RemoveFailed
      ensures loading == old(loading)
    {
      if !ok {
        return RemoveFailed;
      }
      table.rows := WithoutEntry(table.rows, wishlistItemId);
      items := WithoutItem(items, wishlistItemId);
      t := Removed;
    }

    /** `addToCart`. Without a user nothing is written. Otherwise the
        existing line is looked up, then updated or a line inserted; a
        failed write leaves the cart as it was. */
    method AddToCart(signedIn: bool, userId: string, productId: string, store: Database.Store,
                     newId: string, ok: bool) returns (t: Toast)
      modifies store
      ensures !signedIn ==> store.cartItems == old(store.cartItems) && t == AuthenticationRequired
      ensures signedIn && ok ==>
                store.cartItems == AfterAddToCart(old(store.cartItems), userId, productId, newId) && t == AddedToCart
      ensures signedIn && !ok ==> store.cartItems == old(store.cartItems) && t == AddFailed
      ensures store.orders == old(store.orders) && store.orderItems == old(store.orderItems)
      ensures store.profiles == old(store.profiles)
    {
      if !signedIn {
        return AuthenticationRequired;
      }
      var existing := MaybeSingle(LinesOf(store.cartItems, userId, productId)).data;
      if !ok {
        return AddFailed;
      }
      if existing.Some? {
        store.cartItems := Bump(store.cartItems, existing.value.id, existing.value.quantity);
      } else {
        store.cartItems := store.cartItems + [Database.CartRow(newId, userId, productId, 1)];
      }
      t := AddedToCart;
    }
  }
}
