/** The home page's recommendation strip: a heading that greets a signed-in
    user by name, and a set of wishlisted product ids the hearts toggle. */
module RecommendedProducts {
  import opened Query

  /** The set the toggle hands back. */
  function Toggled(s: set<string>, id: string): (r: set<string>)
    ensures id in r <==> id !in s
    ensures forall x :: x != id ==> (x in r <==> x in s)
  {
    if id in s then s - {id} else s + {id}
  }

  /** Toggling the same id twice gives back the original set. */
  lemma ToggleTwice(s: set<string>, id: string)
    ensures Toggled(Toggled(s, id), id) == s
  {
    var t := Toggled(Toggled(s, id), id);
    forall x ensures x in t <==> x in s {
      if x != id {
        assert x in Toggled(s, id) <==> x in s;
      }
    }
  }

  /** Toggles of two different ids do not interfere. */
  lemma TogglesCommute(s: set<string>, a: string, b: string)
    ensures Toggled(Toggled(s, a), b) == Toggled(Toggled(s, b), a)
  {
    var l := Toggled(Toggled(s, a), b);
    var r := Toggled(Toggled(s, b), a);
    forall x ensures x in l <==> x in r {
      assert x in Toggled(s, a) <==> (if x == a then x !in s else x in s);
      assert x in Toggled(s, b) <==> (if x == b then x !in s else x in s);
    }
  }

  class Section {
    var wishlistedItems: set<string>

    constructor ()
      ensures wishlistedItems == {}
    {
      wishlistedItems := {};
    }

    /** The heart shown on a card. */
    predicate IsWishlisted(id: string)
      reads this
    {
      id in wishlistedItems
    }

    /** `handleWishlistToggle`: a copy of the set gains or loses the id and
        replaces it; the previous set, a value, is not changed. */
    method ToggleWishlist(productId: string)
      modifies this
      ensures wishlistedItems == Toggled(old(wishlistedItems), productId)
    {
      var newSet := wishlistedItems;
      if productId in newSet {
        newSet := newSet - {productId};
      } else {
        newSet := newSet + {productId};
      }
      wishlistedItems := newSet;
    }
  }

  const FeaturedTitle: string := "Featured Products"
  const GreetingPrefix: string := "Recommended For You, "

  /** The heading is personalised when the user is signed in and has a
      non-empty name. */
  predicate Personalised(isLoggedIn: bool, userName: Option<string>) {
    isLoggedIn && userName.Some? && userName.value != ""
  }

  /** `sectionTitle`. */
  function SectionTitle(isLoggedIn: bool, userName: Option<string>): (t: string)
    ensures Personalised(isLoggedIn, userName) ==>
              |t| > |GreetingPrefix| && t[..|GreetingPrefix|] == GreetingPrefix && t[|GreetingPrefix|..] == userName.value
    ensures !Personalised(isLoggedIn, userName) ==> t == FeaturedTitle
  {
    if Personalised(isLoggedIn, userName) then GreetingPrefix + userName.value else FeaturedTitle
  }

  /** The generic heading shows exactly when the greeting does not. */
  lemma FeaturedIffNotPersonalised(isLoggedIn: bool, userName: Option<string>)
    ensures SectionTitle(isLoggedIn, userName) == FeaturedTitle <==> !Personalised(isLoggedIn, userName)
  {
    if Personalised(isLoggedIn, userName) {
      var t := SectionTitle(isLoggedIn, userName);
      assert t[0] == 'R' != FeaturedTitle[0];
    }
  }

  /** The tag line above the heading. */
  function Tagline(isLoggedIn: bool): string {
    if isLoggedIn then "AI Powered" else "Curated Selection"
  }
}
