/** The heart button on a product: it reads whether the product is on the
    signed-in user's wishlist, and adds or removes it, flipping its flag
    only when the write succeeds. */
module WishlistButton {
  import opened Query
  import W = Wishlist

  predicate EntryOf(e: W.Entry, userId: string, productId: string) {
    e.userId == userId && e.productId == productId
  }

  /** The rows `.eq('user_id', userId).eq('product_id', productId)` selects. */
  function EntriesOf(rows: seq<W.Entry>, userId: string, productId: string): (r: seq<W.Entry>)
    ensures |r| <= |rows|
    ensures forall e :: e in r <==> e in rows && EntryOf(e, userId, productId)
  {
    if rows == [] then []
    else (if EntryOf(rows[0], userId, productId) then [rows[0]] else []) + EntriesOf(rows[1..], userId, productId)
  }

  /** The rows a `.delete()` with the same filters leaves. */
  function WithoutEntries(rows: seq<W.Entry>, userId: string, productId: string): (r: seq<W.Entry>)
    ensures |r| <= |rows|
    ensures forall e :: e in r <==> e in rows && !EntryOf(e, userId, productId)
  {
    if rows == [] then []
    else (if !EntryOf(rows[0], userId, productId) then [rows[0]] else []) + WithoutEntries(rows[1..], userId, productId)
  }

  /** `!!data` after `maybeSingle`: there is data only for exactly one row,
      since two or more make the query fail. */
  function IsListed(rows: seq<W.Entry>, userId: string, productId: string): (b: bool)
    ensures b <==> |EntriesOf(rows, userId, productId)| == 1
  {
    MaybeSingle(EntriesOf(rows, userId, productId)).data.Some?
  }

  /** After the delete no row for the product is left, and the rows of
      other users and products are all still there. */
  lemma {:induction false} DeleteLeavesNone(rows: seq<W.Entry>, userId: string, productId: string)
    ensures EntriesOf(WithoutEntries(rows, userId, productId), userId, productId) == []
    ensures forall u, p :: !(u == userId && p == productId) ==>
              EntriesOf(WithoutEntries(rows, userId, productId), u, p) == EntriesOf(rows, u, p)
  {
    var r := WithoutEntries(rows, userId, productId);
    NoEntries(r, userId, productId);
    forall u, p | !(u == userId && p == productId)
      ensures EntriesOf(r, u, p) == EntriesOf(rows, u, p)
    {
      DeleteKeepsOthers(rows, userId, productId, u, p);
    }
  }

  lemma {:induction false} NoEntries(rows: seq<W.Entry>, userId: string, productId: string)
    requires forall e :: e in rows ==> !EntryOf(e, userId, productId)
    ensures EntriesOf(rows, userId, productId) == []
  {
    if rows != [] {
      assert forall e :: e in rows[1..] ==> e in rows;
      NoEntries(rows[1..], userId, productId);
    }
  }

  lemma {:induction false} DeleteKeepsOthers(rows: seq<W.Entry>, userId: string, productId: string,
                                             u: string, p: string)
    requires !(u == userId && p == productId)
    ensures EntriesOf(WithoutEntries(rows, userId, productId), u, p) == EntriesOf(rows, u, p)
  {
    if rows != [] {
      DeleteKeepsOthers(rows[1..], userId, productId, u, p);
      var head := if !EntryOf(rows[0], userId, productId) then [rows[0]] else [];
      EntriesOfConcat(head, WithoutEntries(rows[1..], userId, productId), u, p);
      if head != [] {
        assert EntriesOf(head, u, p) == if EntryOf(rows[0], u, p) then [rows[0]] else [];
      }
    }
  }

  lemma {:induction false} EntriesOfConcat(a: seq<W.Entry>, b: seq<W.Entry>, u: string, p: string)
    ensures EntriesOf(a + b, u, p) == EntriesOf(a, u, p) + EntriesOf(b, u, p)
  {
    if a != [] {
      assert (a + b)[1..] == a[1..] + b;
      EntriesOfConcat(a[1..], b, u, p);
    } else {
      assert a + b == b;
    }
  }

  /** The insert adds one row for the product and none for anything else. */
  lemma InsertAddsOne(rows: seq<W.Entry>, e: W.Entry, u: string, p: string)
    ensures EntriesOf(rows + [e], u, p) == EntriesOf(rows, u, p) + (if EntryOf(e, u, p) then [e] else [])
  {
    EntriesOfConcat(rows, [e], u, p);
    assert EntriesOf([e], u, p) == (if EntryOf(e, u, p) then [e] else []) + EntriesOf([e][1..], u, p);
    assert [e][1..] == [];
  }

  /** Removing after adding takes the product back off the list. */
  lemma {:induction false} AddThenRemove(rows: seq<W.Entry>, e: W.Entry)
    ensures WithoutEntries(rows + [e], e.userId, e.productId) == WithoutEntries(rows, e.userId, e.productId)
  {
    if rows == [] {
      assert [e][1..] == [];
    } else {
      assert (rows + [e])[1..] == rows[1..] + [e];
      AddThenRemove(rows[1..], e);
    }
  }

  /** `aria-label`. */
  function AriaLabel(isWishlisted: bool): string {
    if isWishlisted then "Remove from wishlist" else "Add to wishlist"
  }

  /** The text of the labelled variant. */
  function Caption(isWishlisted: bool): string {
    if isWishlisted then "Remove from Wishlist" else "Add to Wishlist"
  }

  datatype Toast = AuthenticationRequired | Added | Removed | UpdateFailed

  class Button {
    const productId: string
    var isWishlisted: bool
    var isLoading: bool

    /** The flag agrees with the table: at most one row for the pair, and
        the flag is set exactly when there is one. */
    ghost predicate InStep(rows: seq<W.Entry>, userId: string)
      reads this
    {
      |EntriesOf(rows, userId, productId)| <= 1
      && (isWishlisted <==> |EntriesOf(rows, userId, productId)| == 1)
    }

    constructor (productId: string, initialIsWishlisted: bool)
      ensures this.productId == productId && isWishlisted == initialIsWishlisted && !isLoading
    {
      this.productId := productId;
      isWishlisted := initialIsWishlisted;
      isLoading := false;
    }

    /** `checkWishlistStatus`, run by the effect when there is a user. */
    method CheckStatus(signedIn: bool, userId: string, table: W.Table)
      modifies this
      ensures signedIn ==> isWishlisted == IsListed(table.rows, userId, productId)
      ensures !signedIn ==> isWishlisted == old(isWishlisted)
      ensures isLoading == old(isLoading)
    {
      if signedIn {
        isWishlisted := IsListed(table.rows, userId, productId);
      }
    }

    /** `toggleWishlist`; the button is disabled while a toggle is running. */
    method Toggle(signedIn: bool, userId: string, table: W.Table, newId: string, ok: bool) returns (t: Toast)
      requires !isLoading
      modifies this, table
      ensures !isLoading
      ensures !signedIn ==> t == AuthenticationRequired
      ensures !signedIn || !ok ==> isWishlisted == old(isWishlisted) && table.rows == old(table.rows)
      ensures signedIn && !ok ==> t == UpdateFailed
      ensures signedIn && ok && old(isWishlisted) ==>
                table.rows == WithoutEntries(old(table.rows), userId, productId) && !isWishlisted && t == Removed
      ensures signedIn && ok && !old(isWishlisted) ==>
                table.rows == old(table.rows) + [W.Entry(newId, userId, productId)] && isWishlisted && t == Added
      ensures old(InStep(table.rows, userId)) ==> InStep(table.rows, userId)
    {
      if !signedIn {
        return AuthenticationRequired;
      }
      isLoading := true;
      if !ok {
        t := UpdateFailed;
      } else if isWishlisted {
        DeleteLeavesNone(table.rows, userId, productId);
        table.rows := WithoutEntries(table.rows, userId, productId);
        isWishlisted := false;
        t := Removed;
      } else {
        InsertAddsOne(table.rows, W.Entry(newId, userId, productId), userId, productId);
        table.rows := table.rows + [W.Entry(newId, userId, productId)];
        isWishlisted := true;
        t := Added;
      }
      isLoading := false;
    }
  }

  /** A status check over a table with at most one row for the pair puts
      the flag in step with the table. */
  lemma CheckPutsInStep(rows: seq<W.Entry>, userId: string, productId: string)
    requires |EntriesOf(rows, userId, productId)| <= 1
    ensures IsListed(rows, userId, productId) <==> |EntriesOf(rows, userId, productId)| > 0
  {
  }

  /** A successful toggle keeps the flag in step with the table: removal
      leaves no row and a cleared flag, an insert into a table without a
      row leaves one row and a set flag. */
  lemma ToggleKeepsInStep(rows: seq<W.Entry>, userId: string, productId: string, newId: string, listed: bool)
    requires |EntriesOf(rows, userId, productId)| <= 1
    requires listed <==> |EntriesOf(rows, userId, productId)| == 1
    ensures listed ==> |EntriesOf(WithoutEntries(rows, userId, productId), userId, productId)| == 0
    ensures !listed ==> |EntriesOf(rows + [W.Entry(newId, userId, productId)], userId, productId)| == 1
  {
    DeleteLeavesNone(rows, userId, productId);
    InsertAddsOne(rows, W.Entry(newId, userId, productId), userId, productId);
  }
}
