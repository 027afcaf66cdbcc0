/** The reviews modal on a doctor's card: validating and posting a review,
    choosing the request that records a reaction, the reaction counts and
    the five-star rating display. */
module Reviews {
  import opened Wrappers
  import opened Strings

  const StarCount: int := 5
  const Reactions: seq<string> := ["like", "heart", "dislike"]

  const LoginToReview: string := "Veuillez vous connecter pour soumettre un avis."
  const RatingOutOfRange: string := "La note doit être entre 1 et 5."
  const CommentRequired: string := "Un commentaire est requis."
  const ReviewSent: string := "Avis soumis avec succès !"
  const ReviewFailedPrefix: string := "Erreur lors de la soumission de l'avis: "
  const LoginToReact: string := "Veuillez vous connecter pour réagir."
  const ReactionUpdated: string := "Réaction mise à jour !"
  const ReactionFailed: string := "Erreur lors de la mise à jour de la réaction."

  const ReactUrl: string := "http://localhost:3000/api/reactions/react"
  const UpdateReactionUrl: string := "http://localhost:3000/api/reactions/update-reaction"

  datatype Review = Review(id: string, patientName: string, rating: int, comment: string, date: string)

  /** The review form: a rating (0 until a star is clicked) and a comment. */
  datatype Draft = Draft(rating: int, comment: string)

  const EmptyDraft: Draft := Draft(0, "")

  datatype Toast = SuccessToast(text: string) | ErrorToast(text: string)

  datatype Verb = Post | Put

  /** The body of a reaction request: a new (or repeated) reaction names
      its `type`, a changed one its `newType`. */
  datatype ReactionBody =
    | React(userId: string, reviewId: string, kind: string)
    | UpdateReaction(userId: string, reviewId: string, newType: string)

  datatype ReactionRequest = ReactionRequest(verb: Verb, url: string, body: ReactionBody)

  /** Reaction counts per review, then per reaction kind. */
  type Counts = map<string, map<string, int>>

  // ---------------------------------------------------------------------
  // Validation of a review
  // ---------------------------------------------------------------------

  /** The first check of `handleSubmitReview` that refuses the form, in the
      order they are made: the login, the rating range, the comment. */
  function Rejection(token: string, draft: Draft): (r: Option<string>)
    ensures r.None? <==> token != "" && 1 <= draft.rating <= StarCount && !IsBlank(draft.comment)
    ensures token == "" ==> r == Some(LoginToReview)
    ensures token != "" && !(1 <= draft.rating <= StarCount) ==> r == Some(RatingOutOfRange)
    ensures token != "" && 1 <= draft.rating <= StarCount && IsBlank(draft.comment) ==> r == Some(CommentRequired)
  {
    if token == "" then Some(LoginToReview)
    else if draft.rating < 1 || draft.rating > 5 then Some(RatingOutOfRange)
    else if IsBlank(draft.comment) then Some(CommentRequired)
    else None
  }

  /** A reset form is always refused, so a posted review cannot be posted
      again by submitting twice. */
  lemma EmptyDraftRejected(token: string)
    ensures Rejection(token, EmptyDraft).Some?
  {
  }

  // ---------------------------------------------------------------------
  // Stars
  // ---------------------------------------------------------------------

  /** The first `n` stars for a rating: star `i` is filled when `i < rating`. */
  function Stars(n: nat, rating: int): (r: seq<bool>)
    ensures |r| == n
    ensures forall i :: 0 <= i < n ==> (r[i] <==> i < rating)
  {
    if n == 0 then [] else Stars(n - 1, rating) + [n - 1 < rating]
  }

  function CountFilled(s: seq<bool>): nat {
    if s == [] then 0 else CountFilled(s[..|s| - 1]) + (if s[|s| - 1] then 1 else 0)
  }

  /** The number of filled stars is the rating, clamped to the stars drawn. */
  lemma {:induction false} FilledStars(n: nat, rating: int)
    ensures CountFilled(Stars(n, rating)) == if rating <= 0 then 0 else if rating >= n then n else rating
  {
    if n > 0 {
      FilledStars(n - 1, rating);
      assert Stars(n, rating)[..n - 1] == Stars(n - 1, rating);
    }
  }

  /** Clicking star `i` (counted from 0) rates `i + 1`. */
  function ClickedRating(i: int): (r: int)
    requires 0 <= i < StarCount
    ensures 1 <= r <= StarCount
    ensures CountFilled(Stars(StarCount, r)) == i + 1
  {
    FilledStars(StarCount, i + 1);
    i + 1
  }

  // ---------------------------------------------------------------------
  // Reaction counts
  // ---------------------------------------------------------------------

  /** `reactionCounts[review._id]?.[reaction] || 0`. */
  function ReactionCount(counts: Counts, reviewId: string, reaction: string): (r: int)
    ensures reviewId in counts && reaction in counts[reviewId] ==> r == counts[reviewId][reaction]
    ensures !(reviewId in counts && reaction in counts[reviewId]) ==> r == 0
  {
    if reviewId in counts && reaction in counts[reviewId] then counts[reviewId][reaction] else 0
  }

  /** `fetchReactions`: the review's entry is replaced by the one in the
      answer, or by an empty record when the answer has none. */
  function Refreshed(counts: Counts, reviewId: string, data: Counts): (r: Counts)
    ensures reviewId in r
    ensures forall id :: id != reviewId ==> (id in r <==> id in counts)
    ensures forall id :: id != reviewId && id in counts ==> r[id] == counts[id]
    ensures forall k :: ReactionCount(r, reviewId, k) == ReactionCount(data, reviewId, k)
  {
    counts[reviewId := if reviewId in data then data[reviewId] else map[]]
  }

  // ---------------------------------------------------------------------
  // The modal
  // ---------------------------------------------------------------------

  class ReviewModal {
    const doctorId: string
    var reviews: seq<Review>
    var draft: Draft
    var reactionCounts: Counts
    var toast: Option<Toast>
    /** Reviews posted for this doctor, oldest first. */
    var posted: seq<Draft>
    /** Reaction requests sent, oldest first. */
    var reactionRequests: seq<ReactionRequest>

    constructor (doctorId: string)
      ensures this.doctorId == doctorId
      ensures reviews == [] && draft == EmptyDraft && reactionCounts == map[]
      ensures toast.None? && posted == [] && reactionRequests == []
    {
      this.doctorId := doctorId;
      reviews := [];
      draft := EmptyDraft;
      reactionCounts := map[];
      toast := None;
      posted := [];
      reactionRequests := [];
    }

    /** Clicking star `i` of the form. */
    method ClickStar(i: int)
      requires 0 <= i < StarCount
      modifies this`draft
      ensures draft == old(draft).(rating := ClickedRating(i))
    {
      draft := draft.(rating := i + 1);
    }

    method EditComment(comment: string)
      modifies this`draft
      ensures draft == old(draft).(comment := comment)
    {
      draft := draft.(comment := comment);
    }

    /** `handleSubmitReview`: a refused form only shows why; otherwise the
        review is posted, and on success the saved review goes first in
        the list and the form is reset. */
    method SubmitReview(token: string, response: Response<Review>)
      modifies this`reviews, this`draft, this`toast, this`posted
      ensures Rejection(token, old(draft)).Some? ==>
        && toast == Some(ErrorToast(Rejection(token, old(draft)).value))
        && posted == old(posted) && reviews == old(reviews) && draft == old(draft)
      ensures Rejection(token, old(draft)).None? ==> posted == old(posted) + [old(draft)]
      ensures Rejection(token, old(draft)).None? && response.Ok? ==>
        && reviews == [response.payload] + old(reviews)
        && draft == EmptyDraft && toast == Some(SuccessToast(ReviewSent))
      ensures Rejection(token, old(draft)).None? && response.Failed? ==>
        && reviews == old(reviews) && draft == old(draft)
        && toast == Some(ErrorToast(ReviewFailedPrefix + response.message))
    {
      if token == "" {
        toast := Some(ErrorToast(LoginToReview));
        return;
      }
      if draft.rating < 1 || draft.rating > 5 {
        toast := Some(ErrorToast(RatingOutOfRange));
        return;
      }
      if IsBlank(draft.comment) {
        toast := Some(ErrorToast(CommentRequired));
        return;
      }
      posted := posted + [draft];
      match response {
        case Ok(added) =>
          reviews := [added] + reviews;
          draft := EmptyDraft;
          toast := Some(SuccessToast(ReviewSent));
        case Failed(message) =>
          toast := Some(ErrorToast(ReviewFailedPrefix + message));
      }
    }

    /** `handleReaction`: without a user or a token nothing is sent; the
        user's current reaction is looked up, the request chosen by
        `ChooseReactionRequest` is sent, and on success the review's counts
        are fetched again (a failed refresh leaves them as they were). */
    method HandleReaction(userId: string, token: string, reviewId: string, reaction: string,
                          current: Response<string>, update: Response<()>, refresh: Response<Counts>)
      modifies this`reactionCounts, this`toast, this`reactionRequests
      ensures userId == "" || token == "" ==>
        toast == Some(ErrorToast(LoginToReact)) && reactionRequests == old(reactionRequests)
        && reactionCounts == old(reactionCounts)
      ensures userId != "" && token != "" && current.Failed? ==>
        toast == Some(ErrorToast(ReactionFailed)) && reactionRequests == old(reactionRequests)
        && reactionCounts == old(reactionCounts)
      ensures userId != "" && token != "" && current.Ok? ==>
        |reactionRequests| == |old(reactionRequests)| + 1
        && reactionRequests[..|old(reactionRequests)|] == old(reactionRequests)
        && RequestFits(reactionRequests[|old(reactionRequests)|], userId, reviewId, reaction, current.payload)
      ensures userId != "" && token != "" && current.Ok? && update.Failed? ==>
        toast == Some(ErrorToast(ReactionFailed)) && reactionCounts == old(reactionCounts)
      ensures userId != "" && token != "" && current.Ok? && update.Ok? ==>
        && toast == Some(SuccessToast(ReactionUpdated))
        && (refresh.Ok? ==> reactionCounts == Refreshed(old(reactionCounts), reviewId, refresh.payload))
        && (refresh.Failed? ==> reactionCounts == old(reactionCounts))
    {
      if userId == "" || token == "" {
        toast := Some(ErrorToast(LoginToReact));
        return;
      }
      if current.Failed? {
        toast := Some(ErrorToast(ReactionFailed));
        return;
      }
      var request := ChooseReactionRequest(userId, reviewId, reaction, current.payload);
      reactionRequests := reactionRequests + [request];
      if update.Failed? {
        toast := Some(ErrorToast(ReactionFailed));
        return;
      }
      if refresh.Ok? {
        reactionCounts := Refreshed(reactionCounts, reviewId, refresh.payload);
      }
      toast := Some(SuccessToast(ReactionUpdated));
    }
  }

  /** The request for a reaction, given the user's current one ("" when
      there is none): repeating the current reaction posts it again to
      `/react`, which toggles it off; a different existing reaction is
      replaced with a PUT to `/update-reaction`; otherwise it is posted. */
  predicate RequestFits(req: ReactionRequest, userId: string, reviewId: string, reaction: string, current: string) {
    if current == reaction || current == "" then
      req == ReactionRequest(Post, ReactUrl, React(userId, reviewId, reaction))
    else
      req == ReactionRequest(Put, UpdateReactionUrl, UpdateReaction(userId, reviewId, reaction))
  }

  /** The request choice of `handleReaction`, which starts from a POST to
      `/react` and switches to the update only for a different, existing
      reaction. */
  method ChooseReactionRequest(userId: string, reviewId: string, reaction: string, current: string)
    returns (req: ReactionRequest)
    ensures RequestFits(req, userId, reviewId, reaction, current)
    ensures req.verb == Put <==> current != "" && current != reaction
    ensures req.body.userId == userId && req.body.reviewId == reviewId
  {
    var requestMethod := Post;
    var requestUrl := ReactUrl;
    var bodyData := React(userId, reviewId, reaction);
    if current == reaction {
      requestMethod := Post;
    } else if current != "" {
      requestMethod := Put;
      requestUrl := UpdateReactionUrl;
      bodyData := UpdateReaction(userId, reviewId, reaction);
    }
    req := ReactionRequest(requestMethod, requestUrl, bodyData);
  }
}
