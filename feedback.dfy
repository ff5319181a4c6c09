/** The "Feedback" page: a review form with a five-star rating. */
module Feedback {
  import opened Common
  import Text
  import Numbers

  /** The `formData` record; `rating` holds the clicked star as a decimal string, or "". */
  datatype FeedbackData = FeedbackData(
    workerName: string,
    serviceCategory: string,
    rating: string,
    title: string,
    review: string,
    wouldRecommend: string)

  const EMPTY_FEEDBACK := FeedbackData("", "", "", "", "", "")

  /** The property names of `formData`, as an input's `name` attribute gives them. */
  datatype Field = WorkerName | ServiceCategory | Rating | Title | Review | WouldRecommend

  /**
   * The fields bound to `handleInputChange`: the name input, the title input
   * and the review textarea. The category, the rating and the recommendation
   * change only through their selects and the star clicks.
   */
  type InputField = f: Field | f.WorkerName? || f.Title? || f.Review? witness WorkerName

  function Get(d: FeedbackData, f: Field): string {
    match f
    case WorkerName => d.workerName
    case ServiceCategory => d.serviceCategory
    case Rating => d.rating
    case Title => d.title
    case Review => d.review
    case WouldRecommend => d.wouldRecommend
  }

  /** `{ ...prev, [name]: value }`: the named field takes the value, every other field is kept. */
  function WithField(d: FeedbackData, f: Field, value: string): (r: FeedbackData)
    ensures Get(r, f) == value
    ensures forall g :: g != f ==> Get(r, g) == Get(d, g)
  {
    match f
    case WorkerName => d.(workerName := value)
    case ServiceCategory => d.(serviceCategory := value)
    case Rating => d.(rating := value)
    case Title => d.(title := value)
    case Review => d.(review := value)
    case WouldRecommend => d.(wouldRecommend := value)
  }

  // ---------------------------------------------------------------- stars

  const STAR_COUNT: nat := 5

  /**
   * `hoveredStar || parseInt(rating) || 0`: the hovered star wins; with no
   * hover, a rating written by a star click counts as its value, and an
   * empty rating (NaN) as 0.
   */
  function StarThreshold(hoveredStar: int, rating: string): (t: int)
    ensures hoveredStar != 0 ==> t == hoveredStar
    ensures hoveredStar == 0 && rating == "" ==> t == 0
    ensures forall k: nat :: hoveredStar == 0 && rating == Numbers.NatToString(k) ==> t == k
  {
    assert forall k: nat :: Numbers.ParseInt(Numbers.NatToString(k)) == Some(k) by {
      forall k: nat ensures Numbers.ParseInt(Numbers.NatToString(k)) == Some(k) {
        Numbers.ParseIntOfNatToString(k, "");
        assert Numbers.NatToString(k) + "" == Numbers.NatToString(k);
      }
    }
    if hoveredStar != 0 then hoveredStar else Numbers.ParseInt(rating).GetOr(0)
  }

  /** `renderStars()`: entry `i` tells whether the star of value `i + 1` is drawn active. */
  function Stars(hoveredStar: int, rating: string): (stars: seq<bool>)
    ensures |stars| == STAR_COUNT
    ensures forall i :: 0 <= i < STAR_COUNT ==> (stars[i] <==> i + 1 <= StarThreshold(hoveredStar, rating))
  {
    seq(STAR_COUNT, i requires 0 <= i < STAR_COUNT => i + 1 <= StarThreshold(hoveredStar, rating))
  }

  /** The active stars always form a prefix of the row. */
  lemma ActiveStarsArePrefix(hoveredStar: int, rating: string, i: int, j: int)
    requires 0 <= j < i < STAR_COUNT && Stars(hoveredStar, rating)[i]
    ensures Stars(hoveredStar, rating)[j]
  {
  }

  /** After a click on star `k` and with no hover, exactly the first `k` stars are active. */
  lemma ClickedRatingLightsStars(k: nat)
    requires 1 <= k <= STAR_COUNT
    ensures forall i :: 0 <= i < STAR_COUNT ==> (Stars(0, Numbers.NatToString(k))[i] <==> i < k)
  {
    Numbers.ParseIntOfNatToString(k, "");
    assert Numbers.NatToString(k) + "" == Numbers.NatToString(k);
  }

  /** While star `h` is hovered, the first `h` stars are active whatever the rating. */
  lemma HoverOverridesRating(h: nat, rating: string)
    requires 1 <= h <= STAR_COUNT
    ensures forall i :: 0 <= i < STAR_COUNT ==> (Stars(h, rating)[i] <==> i < h)
  {
  }

  /** With no rating and no hover, no star is active. */
  lemma NoRatingNoStars()
    ensures forall i :: 0 <= i < STAR_COUNT ==> !Stars(0, "")[i]
  {
    Numbers.ParseIntOfEmpty();
  }

  // ---------------------------------------------------------------- page state

  /** The page's state cells: `formData`, `hoveredStar` and `isLoading`. */
  class FeedbackForm {
    var formData: FeedbackData
    var hoveredStar: int
    var isLoading: bool

    constructor ()
      ensures formData == EMPTY_FEEDBACK && hoveredStar == 0 && !isLoading
    {
      formData := EMPTY_FEEDBACK;
      hoveredStar := 0;
      isLoading := false;
    }

    /** The stars as currently drawn. */
    function ActiveStars(): seq<bool>
      reads this
    {
      Stars(hoveredStar, formData.rating)
    }

    /**
     * The submit button's `disabled={isLoading || !formData.rating}`: disabled
     * while loading or before any star was clicked, enabled by any rating that
     * parses as a number.
     */
    function SubmitDisabled(): (disabled: bool)
      reads this
      ensures isLoading || formData.rating == "" ==> disabled
      ensures !isLoading && Numbers.ParseInt(formData.rating).Some? ==> !disabled
    {
      isLoading || formData.rating == ""
    }

    /**
     * The inputs marked `required` (name, title, review) are non-empty;
     * otherwise the browser does not fire the form's submit event.
     */
    predicate RequiredFilled()
      reads this
    {
      formData.workerName != "" && formData.title != "" && formData.review != ""
    }

    /** `handleInputChange`: only the field named by the input changes. */
    method HandleInputChange(field: InputField, value: string)
      modifies this
      ensures formData == WithField(old(formData), field, value)
      ensures hoveredStar == old(hoveredStar) && isLoading == old(isLoading)
    {
      formData := WithField(formData, field, value);
    }

    /** The service-category select; its item values are the lower-cased category names. */
    method SelectServiceCategory(category: string)
      modifies this
      ensures formData == old(formData).(serviceCategory := Text.ToLower(category))
      ensures hoveredStar == old(hoveredStar) && isLoading == old(isLoading)
    {
      formData := formData.(serviceCategory := Text.ToLower(category));
    }

    /** The "would you recommend" select. */
    method SelectWouldRecommend(value: string)
      modifies this
      ensures formData == old(formData).(wouldRecommend := value)
      ensures hoveredStar == old(hoveredStar) && isLoading == old(isLoading)
    {
      formData := formData.(wouldRecommend := value);
    }

    /** `handleStarClick(k)`: `rating` becomes `k.toString()`, nothing else changes. */
    method HandleStarClick(k: nat)
      modifies this
      ensures formData == old(formData).(rating := Numbers.NatToString(k))
      ensures hoveredStar == old(hoveredStar) && isLoading == old(isLoading)
      ensures !isLoading ==> !SubmitDisabled()
      ensures 1 <= k <= STAR_COUNT && hoveredStar == 0 ==>
                forall i :: 0 <= i < STAR_COUNT ==> (ActiveStars()[i] <==> i < k)
    {
      formData := formData.(rating := Numbers.NatToString(k));
      Numbers.ParseIntOfNatToString(k, "");
      assert Numbers.NatToString(k) + "" == Numbers.NatToString(k);
      if 1 <= k <= STAR_COUNT {
        ClickedRatingLightsStars(k);
      }
    }

    /** `onMouseEnter` on star `k`. */
    method StarEnter(k: nat)
      modifies this
      ensures hoveredStar == k
      ensures formData == old(formData) && isLoading == old(isLoading)
    {
      hoveredStar := k;
    }

    /** `onMouseLeave` on any star. */
    method StarLeave()
      modifies this
      ensures hoveredStar == 0
      ensures formData == old(formData) && isLoading == old(isLoading)
    {
      hoveredStar := 0;
    }

    /** `handleSubmit`, before its timer fires: only `isLoading` is set. */
    method HandleSubmit()
      modifies this
      ensures isLoading
      ensures formData == old(formData) && hoveredStar == old(hoveredStar)
    {
      isLoading := true;
    }

    /**
     * A press on the submit button: ignored while it is disabled, and the
     * browser submits the form only when every required input is filled.
     */
    method PressSubmit() returns (submitted: bool)
      modifies this
      ensures submitted <==> !old(SubmitDisabled()) && old(RequiredFilled())
      ensures submitted ==> isLoading && SubmitDisabled()
      ensures !submitted ==> isLoading == old(isLoading)
      ensures formData == old(formData) && hoveredStar == old(hoveredStar)
    {
      submitted := !SubmitDisabled() && RequiredFilled();
      if submitted {
        HandleSubmit();
      }
    }

    /** The submit timer firing: a toast, loading ends and all six fields are cleared. */
    method SubmitCompleted() returns (t: Toast)
      modifies this
      ensures formData == EMPTY_FEEDBACK && !isLoading
      ensures hoveredStar == old(hoveredStar)
      ensures SubmitDisabled()
      ensures t.title == "Feedback Submitted!"
    {
      t := Toast("Feedback Submitted!",
                 "Thank you for your review. It helps other customers make informed decisions.", false);
      isLoading := false;
      formData := EMPTY_FEEDBACK;
    }
  }
}
