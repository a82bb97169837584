/** The store's tables as rows: orders, order items, cart lines and
    profiles, with the row sets that the cart-line queries select, delete
    and update. */
module Database {

  datatype OrderRow = OrderRow(id: string, userId: string, status: string, totalAmount: real,
                               shippingAddress: string, shippingMethod: string,
                               paymentMethod: string, notes: string, contactEmail: string,
                               contactPhone: string, recipientName: string, createdDay: int)

  datatype OrderItemRow = OrderItemRow(orderId: string, productId: string, quantity: int, pricePerUnit: real)

  datatype CartRow = CartRow(id: string, userId: string, productId: string, quantity: int)

  datatype Profile = Profile(firstName: string, lastName: string, phone: string, address: string,
                             city: string, state: string, postalCode: string, country: string)

  // ---------------------------------------------------------------------
  // The cart-line queries

  /** The rows `select(...).eq('user_id', userId)` returns, in table order. */
  function OfUser(rows: seq<CartRow>, userId: string): (r: seq<CartRow>)
    ensures |r| <= |rows|
  {
    if rows == [] then []
    else (if rows[0].userId == userId then [rows[0]] else []) + OfUser(rows[1..], userId)
  }

  /** The query returns exactly the user's rows. */
  lemma {:induction false} OfUserMembers(rows: seq<CartRow>, userId: string)
    ensures forall x :: x in OfUser(rows, userId) <==> x in rows && x.userId == userId
  {
    if rows != [] {
      OfUserMembers(rows[1..], userId);
      assert rows == [rows[0]] + rows[1..];
    }
  }

  /** The cart rows that survive `delete().eq('user_id', userId)`. */
  function WithoutUser(rows: seq<CartRow>, userId: string): (r: seq<CartRow>)
    ensures forall x :: x in r <==> x in rows && x.userId != userId
  {
    if rows == [] then []
    else (if rows[0].userId == userId then [] else [rows[0]]) + WithoutUser(rows[1..], userId)
  }

  /** The cart rows that survive `delete().eq('id', id).eq('user_id', userId)`. */
  function DeleteLine(rows: seq<CartRow>, id: string, userId: string): (r: seq<CartRow>)
    ensures |r| <= |rows|
  {
    if rows == [] then []
    else (if rows[0].id == id && rows[0].userId == userId then [] else [rows[0]])
           + DeleteLine(rows[1..], id, userId)
  }

  /** The delete removes exactly the rows with that id and user. */
  lemma {:induction false} DeleteLineMembers(rows: seq<CartRow>, id: string, userId: string)
    ensures forall x :: x in DeleteLine(rows, id, userId) <==> x in rows && !(x.id == id && x.userId == userId)
  {
    if rows != [] {
      DeleteLineMembers(rows[1..], id, userId);
      assert rows == [rows[0]] + rows[1..];
    }
  }

  /** The table after `update({ quantity: q }).eq('id', id).eq('user_id', userId)`. */
  function WithQuantity(rows: seq<CartRow>, id: string, userId: string, q: int): (r: seq<CartRow>)
    ensures |r| == |rows|
  {
    if rows == [] then []
    else [if rows[0].id == id && rows[0].userId == userId then rows[0].(quantity := q) else rows[0]]
           + WithQuantity(rows[1..], id, userId, q)
  }

  /** The update reaches exactly the rows with that id and user, and only
      their quantity. */
  lemma {:induction false} WithQuantityAt(rows: seq<CartRow>, id: string, userId: string, q: int, i: int)
    requires 0 <= i < |rows|
    ensures WithQuantity(rows, id, userId, q)[i]
            == if rows[i].id == id && rows[i].userId == userId then rows[i].(quantity := q) else rows[i]
  {
    if i > 0 {
      WithQuantityAt(rows[1..], id, userId, q, i - 1);
    }
  }

  // ---------------------------------------------------------------------
  // Each write leaves the other users' lines as they were

  lemma OfUserCons(h: CartRow, t: seq<CartRow>, userId: string)
    ensures OfUser([h] + t, userId) == (if h.userId == userId then [h] else []) + OfUser(t, userId)
  {
    assert ([h] + t)[0] == h && ([h] + t)[1..] == t;
  }

  lemma {:induction false} DeleteLineSparesOthers(rows: seq<CartRow>, id: string, userId: string, other: string)
    requires other != userId
    ensures OfUser(DeleteLine(rows, id, userId), other) == OfUser(rows, other)
  {
    if rows != [] {
      var h, t := rows[0], rows[1..];
      DeleteLineSparesOthers(t, id, userId, other);
      if !(h.id == id && h.userId == userId) {
        assert DeleteLine(rows, id, userId) == [h] + DeleteLine(t, id, userId);
        OfUserCons(h, DeleteLine(t, id, userId), other);
      } else {
        assert DeleteLine(rows, id, userId) == DeleteLine(t, id, userId);
        assert OfUser(rows, other) == OfUser(t, other);
      }
    }
  }

  lemma {:induction false} WithQuantitySparesOthers(rows: seq<CartRow>, id: string, userId: string, q: int,
                                                    other: string)
    requires other != userId
    ensures OfUser(WithQuantity(rows, id, userId, q), other) == OfUser(rows, other)
  {
    if rows != [] {
      var h, t := rows[0], rows[1..];
      WithQuantitySparesOthers(t, id, userId, q, other);
      var h' := if h.id == id && h.userId == userId then h.(quantity := q) else h;
      assert WithQuantity(rows, id, userId, q) == [h'] + WithQuantity(t, id, userId, q);
      OfUserCons(h', WithQuantity(t, id, userId, q), other);
    }
  }

  lemma {:induction false} WithoutUserSparesOthers(rows: seq<CartRow>, userId: string, other: string)
    requires other != userId
    ensures OfUser(WithoutUser(rows, userId), other) == OfUser(rows, other)
  {
    if rows != [] {
      var h, t := rows[0], rows[1..];
      WithoutUserSparesOthers(t, userId, other);
      if h.userId != userId {
        assert WithoutUser(rows, userId) == [h] + WithoutUser(t, userId);
        OfUserCons(h, WithoutUser(t, userId), other);
      } else {
        assert WithoutUser(rows, userId) == WithoutUser(t, userId);
        assert OfUser(rows, other) == OfUser(t, other);
      }
    }
  }

  /** After the cart delete the user has no line left. */
  lemma {:induction false} WithoutUserLeavesNone(rows: seq<CartRow>, userId: string)
    ensures OfUser(WithoutUser(rows, userId), userId) == []
  {
    if rows != [] {
      var h, t := rows[0], rows[1..];
      WithoutUserLeavesNone(t, userId);
      if h.userId != userId {
        assert WithoutUser(rows, userId) == [h] + WithoutUser(t, userId);
        OfUserCons(h, WithoutUser(t, userId), userId);
      } else {
        assert WithoutUser(rows, userId) == WithoutUser(t, userId);
      }
    }
  }

  // ---------------------------------------------------------------------
  // Each write seen from the user's own lines

  lemma DeleteLineCons(h: CartRow, t: seq<CartRow>, id: string, userId: string)
    ensures DeleteLine([h] + t, id, userId)
            == (if h.id == id && h.userId == userId then [] else [h]) + DeleteLine(t, id, userId)
  {
    assert ([h] + t)[0] == h && ([h] + t)[1..] == t;
  }

  lemma WithQuantityCons(h: CartRow, t: seq<CartRow>, id: string, userId: string, q: int)
    ensures WithQuantity([h] + t, id, userId, q)
            == [if h.id == id && h.userId == userId then h.(quantity := q) else h] + WithQuantity(t, id, userId, q)
  {
    assert ([h] + t)[0] == h && ([h] + t)[1..] == t;
  }

  /** The user's lines after the delete are their lines before it without
      that id. */
  lemma {:induction false} OfUserDeleteLine(rows: seq<CartRow>, id: string, userId: string)
    ensures OfUser(DeleteLine(rows, id, userId), userId) == DeleteLine(OfUser(rows, userId), id, userId)
  {
    if rows != [] {
      var h, t := rows[0], rows[1..];
      OfUserDeleteLine(t, id, userId);
      var mine := OfUser(t, userId);
      if h.userId == userId {
        assert OfUser(rows, userId) == [h] + mine;
        DeleteLineCons(h, mine, id, userId);
        if h.id == id {
          assert DeleteLine(rows, id, userId) == DeleteLine(t, id, userId);
          assert DeleteLine([h] + mine, id, userId) == DeleteLine(mine, id, userId);
        } else {
          assert DeleteLine(rows, id, userId) == [h] + DeleteLine(t, id, userId);
          OfUserCons(h, DeleteLine(t, id, userId), userId);
        }
      } else {
        assert OfUser(rows, userId) == mine;
        assert DeleteLine(rows, id, userId) == [h] + DeleteLine(t, id, userId);
        OfUserCons(h, DeleteLine(t, id, userId), userId);
        assert OfUser([h] + DeleteLine(t, id, userId), userId) == OfUser(DeleteLine(t, id, userId), userId);
      }
    }
  }

  /** The user's lines after the update are their lines before it with the
      update applied. */
  lemma {:induction false} OfUserWithQuantity(rows: seq<CartRow>, id: string, userId: string, q: int)
    ensures OfUser(WithQuantity(rows, id, userId, q), userId)
            == WithQuantity(OfUser(rows, userId), id, userId, q)
  {
    if rows != [] {
      var h, t := rows[0], rows[1..];
      OfUserWithQuantity(t, id, userId, q);
      var h' := if h.id == id && h.userId == userId then h.(quantity := q) else h;
      var rest := WithQuantity(t, id, userId, q);
      assert WithQuantity(rows, id, userId, q) == [h'] + rest;
      OfUserCons(h', rest, userId);
      if h.userId == userId {
        assert OfUser(rows, userId) == [h] + OfUser(t, userId);
        WithQuantityCons(h, OfUser(t, userId), id, userId, q);
      } else {
        assert OfUser(rows, userId) == OfUser(t, userId);
        assert OfUser([h'] + rest, userId) == OfUser(rest, userId);
      }
    }
  }

  // ---------------------------------------------------------------------
  // The store

  /** The tables the handlers write: the checkout's placement, the cart
      drawer and the wishlist's add-to-cart share `cartItems`. */
  class Store {
    var orders: seq<OrderRow>
    var orderItems: seq<OrderItemRow>
    var cartItems: seq<CartRow>
    var profiles: map<string, Profile>

    constructor (cart: seq<CartRow>, profiles: map<string, Profile>)
      ensures orders == [] && orderItems == [] && cartItems == cart && this.profiles == profiles
    {
      orders := [];
      orderItems := [];
      cartItems := cart;
      this.profiles := profiles;
    }
  }
}
