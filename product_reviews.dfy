/** The reviews section of a product page: the review list with its star
    rows, and the form that adds a review or edits the user's own. */
module ProductReviews {
  import opened Query
  import Text
  import Paging

  datatype Review = Review(id: string, rating: int, reviewText: string, createdAt: string, fullName: string)

  /** Reviews of fewer trimmed characters than this are refused. */
  const MinReviewLength: nat := 10

  /** `currentUserReview?.rating || 5`: a missing or zero rating gives 5. */
  function InitialRating(current: Option<Review>): (r: int)
    ensures current.Some? && current.value.rating != 0 ==> r == current.value.rating
    ensures current.None? || current.value.rating == 0 ==> r == 5
    ensures r != 0
  {
    if current.Some? && current.value.rating != 0 then current.value.rating else 5
  }

  /** `currentUserReview?.review_text || ""`. */
  function InitialText(current: Option<Review>): (t: string)
    ensures current.Some? ==> t == current.value.reviewText
    ensures current.None? ==> t == ""
  {
    if current.Some? && current.value.reviewText != "" then current.value.reviewText else ""
  }

  /** The callback a submission invokes. */
  datatype Call = NoCall | UpdateCall(reviewId: string, rating: int, text: string) | AddCall(rating: int, text: string)

  /** How `handleSubmitReview` goes before its callback settles. */
  datatype Decision = NeedsSignIn | TooShort | Proceed(call: Call)

  /** The checks in order, then the choice of callback: the update one
      when there is an own review to update and a handler for it,
      otherwise the add one if there is a handler. The text is passed
      untrimmed. */
  function Decide(isLoggedIn: bool, current: Option<Review>, hasAdd: bool, hasUpdate: bool,
                  rating: int, text: string): (d: Decision)
    ensures d == NeedsSignIn <==> !isLoggedIn
    ensures d == TooShort <==> isLoggedIn && |Text.Trim(text)| < MinReviewLength
    ensures d.Proceed? ==> (d.call.UpdateCall? <==> current.Some? && hasUpdate)
    ensures d.Proceed? ==> (d.call.AddCall? <==> !(current.Some? && hasUpdate) && hasAdd)
    ensures d.Proceed? && d.call.UpdateCall? ==>
              current.Some? && d.call == UpdateCall(current.value.id, rating, text)
    ensures d.Proceed? && d.call.AddCall? ==> d.call == AddCall(rating, text)
  {
    if !isLoggedIn then NeedsSignIn
    else if |Text.Trim(text)| < MinReviewLength then TooShort
    else if current.Some? && hasUpdate then Proceed(UpdateCall(current.value.id, rating, text))
    else if hasAdd then Proceed(AddCall(rating, text))
    else Proceed(NoCall)
  }

  datatype Toast = AuthenticationRequired | ReviewTooShort | ReviewUpdated | ReviewSubmitted | SubmitFailed

  class Form {
    const current: Option<Review>
    var newRating: int
    var newReviewText: string
    var isSubmitting: bool
    var showReviewForm: bool

    constructor (current: Option<Review>)
      ensures this.current == current
      ensures newRating == InitialRating(current) && newReviewText == InitialText(current)
      ensures !isSubmitting && !showReviewForm
    {
      this.current := current;
      newRating := InitialRating(current);
      newReviewText := InitialText(current);
      isSubmitting := false;
      showReviewForm := false;
    }

    /** A click on the i-th star of the form. */
    method SetRating(rating: int)
      modifies this
      ensures newRating == rating && newReviewText == old(newReviewText)
      ensures isSubmitting == old(isSubmitting) && showReviewForm == old(showReviewForm)
    {
      newRating := rating;
    }

    /** The text area's change handler. */
    method SetText(text: string)
      modifies this
      ensures newReviewText == text && newRating == old(newRating)
      ensures isSubmitting == old(isSubmitting) && showReviewForm == old(showReviewForm)
    {
      newReviewText := text;
    }

    /** "Write a Review" / "Edit Your Review" opens the form, "Cancel"
        closes it; neither touches what was typed. */
    method SetFormShown(shown: bool)
      modifies this
      ensures showReviewForm == shown && newRating == old(newRating) && newReviewText == old(newReviewText)
      ensures isSubmitting == old(isSubmitting)
    {
      showReviewForm := shown;
    }

    /** `handleSubmitReview`; the button is disabled while submitting, and
        `callbackOk` says whether the invoked callback resolves. The form
        closes once the callback resolves (or when there is none to call)
        and stays open when it rejects. */
    method Submit(isLoggedIn: bool, hasAdd: bool, hasUpdate: bool, callbackOk: bool)
      returns (call: Call, t: Option<Toast>)
      requires !isSubmitting
      modifies this
      ensures !isSubmitting && newRating == old(newRating) && newReviewText == old(newReviewText)
      ensures var d := Decide(isLoggedIn, current, hasAdd, hasUpdate, old(newRating), old(newReviewText));
              && (d == NeedsSignIn ==> call == NoCall && t == Some(AuthenticationRequired)
                                        && showReviewForm == old(showReviewForm))
              && (d == TooShort ==> call == NoCall && t == Some(ReviewTooShort)
                                     && showReviewForm == old(showReviewForm))
              && (d.Proceed? ==> call == d.call)
              && (d.Proceed? && (callbackOk || d.call == NoCall) ==> !showReviewForm)
              && (d.Proceed? && !callbackOk && d.call != NoCall ==>
                    showReviewForm == old(showReviewForm) && t == Some(SubmitFailed))
              && (d.Proceed? && callbackOk && d.call.UpdateCall? ==> t == Some(ReviewUpdated))
              && (d.Proceed? && callbackOk && d.call.AddCall? ==> t == Some(ReviewSubmitted))
              && (d == Proceed(NoCall) ==> t == None)
    {
      var d := Decide(isLoggedIn, current, hasAdd, hasUpdate, newRating, newReviewText);
      if d == NeedsSignIn {
        return NoCall, Some(AuthenticationRequired);
      }
      if d == TooShort {
        return NoCall, Some(ReviewTooShort);
      }
      isSubmitting := true;
      call := d.call;
      if call != NoCall && !callbackOk {
        t := Some(SubmitFailed);
      } else {
        t := if call.UpdateCall? then Some(ReviewUpdated) else if call.AddCall? then Some(ReviewSubmitted) else None;
        showReviewForm := false;
      }
      isSubmitting := false;
    }
  }

  // ---------------------------------------------------------------------
  // Stars

  /** Star `i` (1 to 5) of the form is filled. */
  predicate FormStarFilled(i: int, rating: int) { i <= rating }

  /** Star `i` (0 to 4) of a listed review is filled. */
  predicate ListStarFilled(i: int, rating: int) { i < rating }

  /** How many of the stars `from` to 4 of a listed review are filled. */
  function FilledFrom(from: nat, rating: int): (n: nat)
    requires from <= 5
    decreases 5 - from
  {
    if from == 5 then 0 else (if ListStarFilled(from, rating) then 1 else 0) + FilledFrom(from + 1, rating)
  }

  /** The two rows show the same picture: list star i is form star i + 1,
      and a listed review shows its rating clamped to 0..5 in filled
      stars. */
  lemma StarsAgree(rating: int)
    ensures forall i :: 0 <= i < 5 ==> (ListStarFilled(i, rating) <==> FormStarFilled(i + 1, rating))
    ensures FilledFrom(0, rating) == Paging.Min(Paging.Max(rating, 0), 5)
  {
    FilledFromCount(0, rating);
  }

  lemma {:induction false} FilledFromCount(from: nat, rating: int)
    requires from <= 5
    ensures FilledFrom(from, rating) == Paging.Max(0, Paging.Min(Paging.Max(rating, 0), 5) - from)
    decreases 5 - from
  {
    if from < 5 {
      FilledFromCount(from + 1, rating);
    }
  }

  /** The bare empty state ("Write a Review" only) shows when there are no
      reviews, no signed-in user and the form is closed. */
  predicate EmptyState(reviewCount: nat, isLoggedIn: bool, showReviewForm: bool) {
    reviewCount == 0 && !isLoggedIn && !showReviewForm
  }

  /** The form's heading and the header button's text. */
  function FormTitle(current: Option<Review>): string {
    if current.Some? then "Edit Your Review" else "Write a Review"
  }
}
