/**
 * The rating panel of the business modal: the visitor's own rating prefilled
 * from the server's list, the five-star input, and the guards in front of
 * submitting and deleting a rating.
 */
module BusinessDetailModal {
  import opened Wrappers
  import opened Session

  /** One rating as the server lists it. */
  datatype Rating = Rating(userId: string, rating: int, comment: string)

  /** The ratings response: the list and the server's aggregates, shown as they come. */
  datatype RatingsData = RatingsData(ratings: seq<Rating>, averageRating: real, totalRatings: int)

  /** The position of the first rating by `userId`, scanning from the front. */
  function FindIndex(ratings: seq<Rating>, userId: string): (r: Option<nat>)
    ensures r.Some? ==> r.value < |ratings| && ratings[r.value].userId == userId
    ensures r.Some? ==> forall j :: 0 <= j < r.value ==> ratings[j].userId != userId
    ensures r.None? ==> forall j :: 0 <= j < |ratings| ==> ratings[j].userId != userId
  {
    if ratings == [] then None
    else if ratings[0].userId == userId then Some(0)
    else
      var rest := FindIndex(ratings[1..], userId);
      if rest.Some? then Some(rest.value + 1) else None
  }

  /** `ratings.find(r => r.userId === userId)` */
  function FindByUser(ratings: seq<Rating>, userId: string): (r: Option<Rating>)
    ensures r.Some? <==> exists j :: 0 <= j < |ratings| && ratings[j].userId == userId
    ensures r.Some? ==> r.value.userId == userId
    ensures r.Some? ==>
      exists i :: 0 <= i < |ratings| && ratings[i] == r.value && forall j :: 0 <= j < i ==> ratings[j].userId != userId
  {
    var i := FindIndex(ratings, userId);
    if i.Some? then Some(ratings[i.value]) else None
  }

  /**
   * The rating that prefills the form after a fetch: only with a truthy token,
   * a stored user record, and a rating by that user.
   */
  function Prefill(ratings: seq<Rating>, st: Storage): (r: Option<Rating>)
    ensures r.Some? ==> Truthy(st, TokenKey) && StoredUser(st).Some?
    ensures Truthy(st, TokenKey) && StoredUser(st).Some? ==> r == FindByUser(ratings, StoredUser(st).value.id)
  {
    if Truthy(st, TokenKey) && StoredUser(st).Some? then FindByUser(ratings, StoredUser(st).value.id) else None
  }

  /** When a user rated twice, the earlier rating is the one shown. */
  lemma PrefillTakesFirst(a: Rating, b: Rating, st: Storage)
    requires Truthy(st, TokenKey) && StoredUser(st).Some?
    requires a.userId == StoredUser(st).value.id && b.userId == a.userId
    ensures Prefill([a, b], st) == Some(a)
  {
    var r := FindByUser([a, b], a.userId);
    var i :| 0 <= i < 2 && [a, b][i] == r.value && forall j :: 0 <= j < i ==> [a, b][j].userId != a.userId;
    assert i == 0;
  }

  /** How the rating request ended. */
  datatype PostResult = Posted | Rejected(serverMessage: Option<string>)

  /** The error for a rejected request: the server's message when it sent a non-empty one. */
  function RejectionMessage(serverMessage: Option<string>): (message: string)
    ensures message != ""
    ensures serverMessage.Some? && serverMessage.value != "" ==> message == serverMessage.value
    ensures serverMessage.None? || serverMessage.value == "" ==> message == "Failed to submit rating"
  {
    if serverMessage.Some? && serverMessage.value != "" then serverMessage.value else "Failed to submit rating"
  }

  /** One star of the row. */
  datatype Star = Star(value: int, filled: bool, interactive: bool)

  class RatingPanel {
    const businessId: string
    var ratings: seq<Rating>
    var averageRating: real
    var totalRatings: int
    var userRating: int
    var userComment: string
    var hoverRating: int
    var isSubmitting: bool
    var error: string
    var success: string
    var isAuthenticated: bool

    constructor (id: string)
      ensures businessId == id && ratings == [] && averageRating == 0.0 && totalRatings == 0
      ensures userRating == 0 && userComment == "" && hoverRating == 0
      ensures !isSubmitting && error == "" && success == "" && !isAuthenticated
    {
      businessId := id;
      ratings := [];
      averageRating := 0.0;
      totalRatings := 0;
      userRating := 0;
      userComment := "";
      hoverRating := 0;
      isSubmitting := false;
      error := "";
      success := "";
      isAuthenticated := false;
    }

    /** `checkAuth`: signed in exactly when the stored token is truthy. */
    method CheckAuth(st: Storage)
      modifies this`isAuthenticated
      ensures isAuthenticated == Truthy(st, TokenKey)
    {
      isAuthenticated := Truthy(st, TokenKey);
    }

    /**
     * `fetchRatings`: the list and aggregates are replaced, and the visitor's
     * first rating, if any, fills the form; nothing changes when the request fails.
     */
    method FetchRatings(response: Option<RatingsData>, st: Storage)
      modifies this`ratings, this`averageRating, this`totalRatings, this`userRating, this`userComment
      ensures response.None? ==>
        ratings == old(ratings) && averageRating == old(averageRating) && totalRatings == old(totalRatings)
        && userRating == old(userRating) && userComment == old(userComment)
      ensures response.Some? ==>
        ratings == response.value.ratings && averageRating == response.value.averageRating
        && totalRatings == response.value.totalRatings
      ensures response.Some? && Prefill(response.value.ratings, st).Some? ==>
        userRating == Prefill(response.value.ratings, st).value.rating
        && userComment == Prefill(response.value.ratings, st).value.comment
      ensures response.Some? && Prefill(response.value.ratings, st).None? ==>
        userRating == old(userRating) && userComment == old(userComment)
    {
      if response.None? {
        return;
      }
      var data := response.value;
      ratings := data.ratings;
      averageRating := data.averageRating;
      totalRatings := data.totalRatings;
      var existing := Prefill(data.ratings, st);
      if existing.Some? {
        userRating := existing.value.rating;
        userComment := existing.value.comment;
      }
    }

    /** The value the row shows: the hovered star when there is one, else the chosen rating. */
    function ShownValue(rating: int, interactive: bool): int
      reads this
    {
      if interactive then (if hoverRating != 0 then hoverRating else userRating) else rating
    }

    /** `renderStars`: five stars valued 1 to 5, each filled when its value is at most the shown value. */
    method RenderStars(rating: int, interactive: bool) returns (stars: seq<Star>)
      ensures |stars| == 5
      ensures forall k :: 0 <= k < 5 ==> stars[k].value == k + 1 && stars[k].interactive == interactive
      ensures forall k :: 0 <= k < 5 ==> (stars[k].filled <==> k + 1 <= ShownValue(rating, interactive))
      ensures forall k, m :: 0 <= k < m < 5 && stars[m].filled ==> stars[k].filled
    {
      var shown := ShownValue(rating, interactive);
      stars := [];
      var i := 1;
      while i <= 5
        invariant 1 <= i <= 6 && |stars| == i - 1
        invariant forall k :: 0 <= k < i - 1 ==> stars[k].value == k + 1 && stars[k].interactive == interactive
        invariant forall k :: 0 <= k < i - 1 ==> (stars[k].filled <==> k + 1 <= shown)
      {
        stars := stars + [Star(i, i <= shown, interactive)];
        i := i + 1;
      }
    }

    /** Clicking a star of the input row chooses its value. */
    method ClickStar(i: int)
      requires 1 <= i <= 5
      modifies this`userRating
      ensures userRating == i && 1 <= userRating <= 5
    {
      userRating := i;
    }

    method HoverStar(i: int)
      requires 1 <= i <= 5
      modifies this`hoverRating
      ensures hoverRating == i
    {
      hoverRating := i;
    }

    /** Leaving a star shows the chosen rating again. */
    method LeaveStars()
      modifies this`hoverRating
      ensures hoverRating == 0
      ensures forall r :: ShownValue(r, true) == userRating
    {
      hoverRating := 0;
    }

    method SetComment(comment: string)
      modifies this`userComment
      ensures userComment == comment
    {
      userComment := comment;
    }

    /**
     * `handleRatingSubmit`: a signed-out visitor is asked to log in, then an
     * unchosen rating is refused, and only then is the rating sent.
     */
    method HandleRatingSubmit(result: PostResult) returns (sent: Option<(int, string)>)
      modifies this`error, this`success, this`isSubmitting
      ensures !old(isAuthenticated) ==>
        sent == None && error == "Please login to rate this business" && success == old(success)
        && isSubmitting == old(isSubmitting)
      ensures isAuthenticated && userRating == 0 ==>
        sent == None && error == "Please select a rating" && success == old(success)
        && isSubmitting == old(isSubmitting)
      ensures sent.Some? <==> isAuthenticated && userRating != 0
      ensures sent.Some? ==> sent.value == (userRating, userComment) && !isSubmitting
      ensures sent.Some? && result.Posted? ==> error == "" && success == "Rating submitted successfully!"
      ensures sent.Some? && result.Rejected? ==> error == RejectionMessage(result.serverMessage) && success == ""
    {
      if !isAuthenticated {
        error := "Please login to rate this business";
        return None;
      }
      if userRating == 0 {
        error := "Please select a rating";
        return None;
      }
      error := "";
      success := "";
      isSubmitting := true;
      sent := Some((userRating, userComment));
      match result {
        case Posted =>
          success := "Rating submitted successfully!";
        case Rejected(message) =>
          error := RejectionMessage(message);
      }
      isSubmitting := false;
    }

    /** `handleDeleteRating`: after confirmation, a successful delete clears the visitor's rating and comment. */
    method HandleDeleteRating(confirmed: bool, deleted: bool)
      modifies this`userRating, this`userComment, this`success, this`error
      ensures !confirmed ==>
        userRating == old(userRating) && userComment == old(userComment)
        && error == old(error) && success == old(success)
      ensures confirmed && deleted ==>
        userRating == 0 && userComment == "" && success == "Rating deleted successfully!"
        && error == old(error) && !HasOwnRating() && FormTitle() == "Rate This Business"
      ensures confirmed && !deleted ==>
        error == "Failed to delete rating" && success == old(success)
        && userRating == old(userRating) && userComment == old(userComment)
    {
      if !confirmed {
        return;
      }
      if deleted {
        userRating := 0;
        userComment := "";
        success := "Rating deleted successfully!";
      } else {
        error := "Failed to delete rating";
      }
    }

    /** The form speaks of updating, and offers Delete, exactly when a rating is chosen. */
    predicate HasOwnRating()
      reads this
    {
      userRating > 0
    }

    function FormTitle(): (title: string)
      reads this
      ensures title == "Update Your Rating" <==> HasOwnRating()
    {
      if HasOwnRating() then "Update Your Rating" else "Rate This Business"
    }

    function SubmitLabel(): (caption: string)
      reads this
      ensures isSubmitting ==> caption == "Submitting..."
      ensures !isSubmitting ==> (caption == "Update Rating" <==> HasOwnRating())
      ensures !isSubmitting && !HasOwnRating() ==> caption == "Submit Rating"
    {
      if isSubmitting then "Submitting..." else if HasOwnRating() then "Update Rating" else "Submit Rating"
    }
  }
}
