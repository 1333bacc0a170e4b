/**
 * The detail screen's state holder: fetches one review by id. Each fetch
 * runs its opening update (spinner on, error cleared), asks the repository
 * for the id it was given, and completes with the review or an error
 * message. A review loaded earlier stays on screen when a later fetch fails.
 */
module ReviewDetail {
  import opened Wrappers
  import opened ReviewMapping
  import opened Repository
  import opened Loading

  datatype ReviewDetailState = ReviewDetailState(review: Option<Review>, isLoading: bool, error: Option<string>)

  /** The state a new holder starts in: no review, no spinner, no error. */
  function InitialDetailState(): (s: ReviewDetailState)
    ensures DetailInvariant(s)
  {
    ReviewDetailState(None, false, None)
  }

  function FetchStarted(s: ReviewDetailState): ReviewDetailState {
    s.(isLoading := true, error := None)
  }

  function FetchSucceeded(s: ReviewDetailState, review: Review): ReviewDetailState {
    s.(review := Some(review), isLoading := false)
  }

  function FetchFailed(s: ReviewDetailState, message: Option<string>): ReviewDetailState {
    s.(isLoading := false, error := Some(ErrorText(message)))
  }

  /** What holds in every state the holder can reach: no error is shown with the spinner. */
  predicate DetailInvariant(s: ReviewDetailState) {
    s.error.Some? ==> !s.isLoading
  }

  /**
   * Each update keeps the invariant, and none of them ever clears a loaded
   * review: the opening update and a failure keep it, a success replaces it.
   */
  lemma FetchTransitions(s: ReviewDetailState, review: Review, message: Option<string>)
    requires DetailInvariant(s)
    ensures DetailInvariant(FetchStarted(s)) && DetailInvariant(FetchSucceeded(s, review)) && DetailInvariant(FetchFailed(s, message))
    ensures FetchStarted(s).review == s.review && FetchFailed(s, message).review == s.review
    ensures FetchSucceeded(s, review).review == Some(review)
  {
  }

  /**
   * A complete cycle ends with the spinner off: after a success the review
   * is shown with no error (the opening update cleared it); after a failure
   * the message, or the fallback text, is shown beside whatever review was
   * there before.
   */
  lemma FetchCycleEndsIdle(s: ReviewDetailState, review: Review, message: Option<string>)
    ensures FetchSucceeded(FetchStarted(s), review) == ReviewDetailState(Some(review), false, None)
    ensures var t := FetchFailed(FetchStarted(s), message);
      && !t.isLoading && t.review == s.review
      && t.error == Some(if message.Some? then message.value else "An error occurred")
  {
  }

  /** A launched fetch: the id it asks for and how far it has got. */
  datatype FetchJob = FetchJob(reviewId: string, phase: Phase)

  class ReviewDetailViewModel {
    var state: ReviewDetailState
    /** Every fetch launched so far, in launch order. */
    var jobs: seq<FetchJob>

    ghost predicate Valid()
      reads this
    {
      && DetailInvariant(state)
      && (state.isLoading ==> exists j :: 0 <= j < |jobs| && jobs[j].phase == Running)
    }

    /** A new holder shows nothing and has launched nothing. */
    constructor ()
      ensures Valid()
      ensures state == InitialDetailState()
      ensures jobs == []
    {
      state := InitialDetailState();
      jobs := [];
    }

    /** Schedules a fetch of `reviewId`; nothing runs yet. */
    method GetReview(reviewId: string)
      requires Valid()
      modifies this
      ensures Valid()
      ensures state == old(state)
      ensures jobs == old(jobs) + [FetchJob(reviewId, Launched)]
    {
      ghost var before := jobs;
      jobs := jobs + [FetchJob(reviewId, Launched)];
      assert forall j :: 0 <= j < |before| ==> jobs[j] == before[j];
    }

    /** Fetch `j` starts running: its opening update. */
    method Begin(j: nat)
      requires Valid()
      requires j < |jobs| && jobs[j].phase == Launched
      modifies this
      ensures Valid()
      ensures state == FetchStarted(old(state))
      ensures jobs == old(jobs)[j := FetchJob(old(jobs)[j].reviewId, Running)]
    {
      state := FetchStarted(state);
      jobs := jobs[j := FetchJob(jobs[j].reviewId, Running)];
      assert jobs[j].phase == Running;
    }

    /** Fetch `j`'s producer emitted `review`. */
    method Succeed(j: nat, review: Review)
      requires Valid()
      requires j < |jobs| && jobs[j].phase == Running
      modifies this
      ensures Valid()
      ensures state == FetchSucceeded(old(state), review)
      ensures jobs == old(jobs)[j := FetchJob(old(jobs)[j].reviewId, Finished)]
    {
      state := FetchSucceeded(state, review);
      jobs := jobs[j := FetchJob(jobs[j].reviewId, Finished)];
    }

    /** Fetch `j`'s producer threw with `message`. */
    method Fail(j: nat, message: Option<string>)
      requires Valid()
      requires j < |jobs| && jobs[j].phase == Running
      modifies this
      ensures Valid()
      ensures state == FetchFailed(old(state), message)
      ensures jobs == old(jobs)[j := FetchJob(old(jobs)[j].reviewId, Finished)]
    {
      state := FetchFailed(state, message);
      jobs := jobs[j := FetchJob(jobs[j].reviewId, Finished)];
    }

    /**
     * Fetch `j` collects the repository's producer for its id against the
     * remote source `api`: the mapped report on a response, the source's
     * message on a failure.
     */
    method Complete(j: nat, api: string -> ApiResult<ReportResponseDto>)
      requires Valid()
      requires j < |jobs| && jobs[j].phase == Running
      modifies this
      ensures Valid()
      ensures jobs == old(jobs)[j := FetchJob(old(jobs)[j].reviewId, Finished)]
      ensures match api(old(jobs)[j].reviewId)
        case Response(body) => state == FetchSucceeded(old(state), ToReview(body.report))
        case ApiFailure(message) => state == FetchFailed(old(state), message)
    {
      var flow := GetReviewById(api, jobs[j].reviewId);
      match flow
      case Emitted(values) =>
        Succeed(j, values[0]);
      case Threw(message) =>
        Fail(j, message);
    }
  }

  /** Loading review "1" against a source that has it leaves it shown, idle and without error. */
  method LoadOneReview(api: string -> ApiResult<ReportResponseDto>) returns (vm: ReviewDetailViewModel)
    requires api("1").Response? && api("1").body.report.id == "1"
    ensures vm.state.review.Some? && vm.state.review.value.id == "1"
    ensures !vm.state.isLoading && vm.state.error == None
  {
    vm := new ReviewDetailViewModel();
    vm.GetReview("1");
    vm.Begin(0);
    vm.Complete(0, api);
  }
}
