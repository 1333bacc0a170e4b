/**
 * The review list's state holder. Intents edit the filter fields and launch
 * a load; each load later runs its opening update (spinner on, error
 * cleared), calls the remote source with the filter captured at launch, and
 * completes with either a list, sorted by the order in force at completion,
 * or an error message.
 */
module ReviewsList {
  import opened Wrappers
  import opened ReviewMapping
  import opened RatingSort
  import opened Repository
  import opened Loading

  /** The source's ASCENDING, DESCENDING and NONE. */
  datatype SortOrder = Ascending | Descending | Unsorted

  datatype ReviewsState = ReviewsState(
    reviews: seq<Review>,
    isLoading: bool,
    error: Option<string>,
    selectedCategory: Option<string>,
    minRating: Option<int>,
    maxRating: Option<int>,
    categories: seq<string>,
    sortOrder: SortOrder)

  datatype ReviewsIntent =
    | LoadReviews(category: Option<string>, minRating: Option<int>, maxRating: Option<int>)
    | UpdateCategory(category: Option<string>)
    | UpdateMinRating(rating: Option<int>)
    | UpdateMaxRating(rating: Option<int>)

  /** The state a new holder starts in: nothing shown, no filter, server order. */
  function InitialState(): (s: ReviewsState)
    ensures Invariant(s)
  {
    ReviewsState([], false, None, None, None, None, [], Unsorted)
  }

  /** The load the holder launches when it is created: no filter at all. */
  const InitialQuery: ReviewsQuery := ReviewsQuery(None, None, None)

  // ---------------------------------------------------------------------
  // Transitions

  /** The state edit an intent makes before it launches its load. */
  function ApplyIntent(s: ReviewsState, intent: ReviewsIntent): ReviewsState {
    match intent
    case LoadReviews(_, _, _) => s
    case UpdateCategory(c) => s.(selectedCategory := c)
    case UpdateMinRating(r) =>
      s.(minRating := r, maxRating := None, sortOrder := if r.Some? then Ascending else Unsorted)
    case UpdateMaxRating(r) =>
      s.(maxRating := r, minRating := None, sortOrder := if r.Some? then Descending else Unsorted)
  }

  /** The filter an intent's load sends, read from the state after the edit. */
  function LoadQuery(intent: ReviewsIntent, edited: ReviewsState): ReviewsQuery {
    match intent
    case LoadReviews(c, lo, hi) => ReviewsQuery(c, lo, hi)
    case UpdateCategory(c) => ReviewsQuery(c, edited.minRating, edited.maxRating)
    case UpdateMinRating(r) => ReviewsQuery(edited.selectedCategory, r, None)
    case UpdateMaxRating(r) => ReviewsQuery(edited.selectedCategory, None, r)
  }

  /** The opening update of every load. */
  function LoadStarted(s: ReviewsState): ReviewsState {
    s.(isLoading := true, error := None)
  }

  /**
   * The client-side sort policy: ascending or descending by rating (both
   * stable), or the server's order untouched.
   */
  function ApplySortPolicy(order: SortOrder, reviews: seq<Review>): (r: seq<Review>)
    ensures multiset(r) == multiset(reviews)
    ensures order == Ascending ==> forall i, j :: 0 <= i < j < |r| ==> r[i].rating <= r[j].rating
    ensures order == Descending ==> forall i, j :: 0 <= i < j < |r| ==> r[i].rating >= r[j].rating
    ensures order == Unsorted ==> r == reviews
  {
    match order
    case Ascending => StableSort(reviews, false)
    case Descending =>
      var sorted := StableSort(reviews, true);
      assert forall i, j :: 0 <= i < j < |sorted| ==> Key(true, sorted[i]) <= Key(true, sorted[j]);
      sorted
    case Unsorted => reviews
  }

  /** Reviews with equal ratings keep the order the server sent them in. */
  lemma SortPolicyIsStable(order: SortOrder, reviews: seq<Review>, k: real)
    ensures WithRating(ApplySortPolicy(order, reviews), k) == WithRating(reviews, k)
  {
    match order
    case Ascending => StableSortKeepsTies(reviews, false, k);
    case Descending => StableSortKeepsTies(reviews, true, k);
    case Unsorted =>
  }

  /** A load's list arrived: sort it by the order in force now, store it, spinner off. */
  function LoadSucceeded(s: ReviewsState, results: seq<Review>): ReviewsState {
    s.(reviews := ApplySortPolicy(s.sortOrder, results), isLoading := false)
  }

  /** A load failed: spinner off, the message (or the fallback text) shown. */
  function LoadFailed(s: ReviewsState, message: Option<string>): ReviewsState {
    s.(isLoading := false, error := Some(ErrorText(message)))
  }

  // ---------------------------------------------------------------------
  // Properties of single transitions

  /**
   * Every intent touches only the filter fields. LoadReviews changes
   * nothing, UpdateCategory only the category.
   */
  lemma IntentTouchesOnlyFilters(s: ReviewsState, intent: ReviewsIntent)
    ensures var t := ApplyIntent(s, intent);
      && t.reviews == s.reviews && t.isLoading == s.isLoading && t.error == s.error
      && t.categories == s.categories
    ensures intent.LoadReviews? ==> ApplyIntent(s, intent) == s
    ensures intent.UpdateCategory? ==>
      ApplyIntent(s, intent).(selectedCategory := s.selectedCategory) == s
      && ApplyIntent(s, intent).selectedCategory == intent.category
  {
  }

  /**
   * The filter each intent loads with, in terms of the state before the
   * intent: LoadReviews its own three arguments; UpdateCategory the new
   * category with the current rating bounds; a rating intent the current
   * category, its own bound, and no other bound.
   */
  lemma IntentLoadsWith(s: ReviewsState, intent: ReviewsIntent)
    ensures LoadQuery(intent, ApplyIntent(s, intent)) ==
      match intent
      case LoadReviews(c, lo, hi) => ReviewsQuery(c, lo, hi)
      case UpdateCategory(c) => ReviewsQuery(c, s.minRating, s.maxRating)
      case UpdateMinRating(r) => ReviewsQuery(s.selectedCategory, r, None)
      case UpdateMaxRating(r) => ReviewsQuery(s.selectedCategory, None, r)
  {
  }

  /** Apart from LoadReviews, an intent loads exactly the filter the state now shows. */
  lemma FilterIntentLoadsShownFilter(s: ReviewsState, intent: ReviewsIntent)
    requires !intent.LoadReviews?
    ensures var t := ApplyIntent(s, intent);
      LoadQuery(intent, t) == ReviewsQuery(t.selectedCategory, t.minRating, t.maxRating)
  {
  }

  /**
   * The two rating intents exclude each other: each clears the other bound
   * and derives the sort order from its own argument alone, and neither
   * touches anything but the two bounds and the order.
   */
  lemma RatingIntentsExclusive(s: ReviewsState, r: Option<int>)
    ensures var t := ApplyIntent(s, UpdateMinRating(r));
      && t.minRating == r && t.maxRating == None && (t.sortOrder == Ascending <==> r.Some?) && t.sortOrder != Descending
      && t.(minRating := s.minRating, maxRating := s.maxRating, sortOrder := s.sortOrder) == s
    ensures var t := ApplyIntent(s, UpdateMaxRating(r));
      && t.maxRating == r && t.minRating == None && (t.sortOrder == Descending <==> r.Some?) && t.sortOrder != Ascending
      && t.(minRating := s.minRating, maxRating := s.maxRating, sortOrder := s.sortOrder) == s
  {
  }

  /** Sending the same intent twice leaves the state as sending it once. */
  lemma IntentIdempotent(s: ReviewsState, intent: ReviewsIntent)
    ensures ApplyIntent(ApplyIntent(s, intent), intent) == ApplyIntent(s, intent)
  {
  }

  /** Of two rating intents in a row, the second one decides the filter and the order. */
  lemma LaterRatingIntentWins(s: ReviewsState, first: ReviewsIntent, second: ReviewsIntent)
    requires first.UpdateMinRating? || first.UpdateMaxRating?
    requires second.UpdateMinRating? || second.UpdateMaxRating?
    ensures ApplyIntent(ApplyIntent(s, first), second) == ApplyIntent(s, second)
  {
  }

  /** The opening update shows the spinner, clears the error, and keeps the stale list and filters. */
  lemma StartKeepsListAndFilters(s: ReviewsState)
    ensures var t := LoadStarted(s);
      && t.isLoading && t.error == None
      && t.(isLoading := s.isLoading, error := s.error) == s
  {
  }

  /**
   * A successful completion stores a permutation of the results, ordered by
   * the sort order in force at completion, turns the spinner off, and
   * changes nothing else.
   */
  lemma SuccessStoresSortedResults(s: ReviewsState, results: seq<Review>)
    ensures var t := LoadSucceeded(s, results);
      && !t.isLoading
      && multiset(t.reviews) == multiset(results)
      && (s.sortOrder == Ascending ==> forall i, j :: 0 <= i < j < |t.reviews| ==> t.reviews[i].rating <= t.reviews[j].rating)
      && (s.sortOrder == Descending ==> forall i, j :: 0 <= i < j < |t.reviews| ==> t.reviews[i].rating >= t.reviews[j].rating)
      && (s.sortOrder == Unsorted ==> t.reviews == results)
      && t.(reviews := s.reviews, isLoading := s.isLoading) == s
  {
  }

  /** A failed completion shows the message, or the fallback text, and keeps the list and filters. */
  lemma FailureShowsMessage(s: ReviewsState, message: Option<string>)
    ensures var t := LoadFailed(s, message);
      && !t.isLoading
      && (message.Some? ==> t.error == message)
      && (message.None? ==> t.error == Some("An error occurred"))
      && t.(isLoading := s.isLoading, error := s.error) == s
  {
  }

  // ---------------------------------------------------------------------
  // Traces and the reachable-state invariant

  /** Mutually exclusive rating bounds, with the sort order derived from which one is set. */
  predicate FiltersConsistent(s: ReviewsState) {
    && !(s.minRating.Some? && s.maxRating.Some?)
    && (s.sortOrder == Ascending <==> s.minRating.Some?)
    && (s.sortOrder == Descending <==> s.maxRating.Some?)
  }

  /** What holds in every state the holder can reach. */
  predicate Invariant(s: ReviewsState) {
    && FiltersConsistent(s)
    && s.categories == []
    && (s.error.Some? ==> !s.isLoading)
  }

  /** One thing that can happen to the state: an intent, or a step of some launched load. */
  datatype Event =
    | Intent(intent: ReviewsIntent)
    | Started
    | Succeeded(results: seq<Review>)
    | Failed(message: Option<string>)

  function Step(s: ReviewsState, e: Event): ReviewsState {
    match e
    case Intent(intent) => ApplyIntent(s, intent)
    case Started => LoadStarted(s)
    case Succeeded(results) => LoadSucceeded(s, results)
    case Failed(message) => LoadFailed(s, message)
  }

  function Run(s: ReviewsState, trace: seq<Event>): ReviewsState
    decreases |trace|
  {
    if trace == [] then s else Run(Step(s, trace[0]), trace[1..])
  }

  lemma StepPreservesInvariant(s: ReviewsState, e: Event)
    requires Invariant(s)
    ensures Invariant(Step(s, e))
  {
  }

  lemma {:induction false} RunPreservesInvariant(s: ReviewsState, trace: seq<Event>)
    requires Invariant(s)
    ensures Invariant(Run(s, trace))
    decreases |trace|
  {
    if trace != [] {
      StepPreservesInvariant(s, trace[0]);
      RunPreservesInvariant(Step(s, trace[0]), trace[1..]);
    }
  }

  /**
   * In every state reachable from the initial one, whatever intents are sent
   * and however the loads interleave, at most one rating bound is set, the
   * sort order is Ascending exactly when the minimum is set and Descending
   * exactly when the maximum is, and an error is never shown with the spinner.
   */
  lemma ReachableStatesSatisfyInvariant(trace: seq<Event>)
    ensures Invariant(Run(InitialState(), trace))
  {
    RunPreservesInvariant(InitialState(), trace);
  }

  // ---------------------------------------------------------------------
  // The rating buttons of the list screen

  /** The effect on the state of intents sent one after another. */
  function ApplyIntents(s: ReviewsState, intents: seq<ReviewsIntent>): ReviewsState
    decreases |intents|
  {
    if intents == [] then s else ApplyIntents(ApplyIntent(s, intents[0]), intents[1..])
  }

  /** "Min Rating (5)" as written: the minimum, then clear the maximum. */
  function MinRatingButtonAsWritten(): seq<ReviewsIntent> {
    [UpdateMinRating(Some(5)), UpdateMaxRating(None)]
  }

  /** "Max Rating (5+)": clear the minimum, then set the maximum. */
  function MaxRatingButton(): seq<ReviewsIntent> {
    [UpdateMinRating(None), UpdateMaxRating(Some(5))]
  }

  /** "Min Rating (5)" as the mirror image of the other button: clear the maximum, then the minimum. */
  function MinRatingButton(): seq<ReviewsIntent> {
    [UpdateMaxRating(None), UpdateMinRating(Some(5))]
  }

  /** As written, the button's second intent clears the minimum its first one set. */
  lemma MinRatingButtonAsWrittenClearsFilter(s: ReviewsState)
    ensures var t := ApplyIntents(s, MinRatingButtonAsWritten());
      t.minRating == None && t.maxRating == None && t.sortOrder == Unsorted
  {
    var intents := MinRatingButtonAsWritten();
    assert ApplyIntents(s, intents) == ApplyIntents(ApplyIntent(s, intents[0]), intents[1..]);
  }

  lemma MaxRatingButtonSetsMaximum(s: ReviewsState)
    ensures var t := ApplyIntents(s, MaxRatingButton());
      t.maxRating == Some(5) && t.minRating == None && t.sortOrder == Descending
  {
    var intents := MaxRatingButton();
    assert ApplyIntents(s, intents) == ApplyIntents(ApplyIntent(s, intents[0]), intents[1..]);
  }

  /** "Clear Rating Filter": clear the minimum, then the maximum. */
  function ClearRatingButton(): seq<ReviewsIntent> {
    [UpdateMinRating(None), UpdateMaxRating(None)]
  }

  lemma ClearRatingButtonClearsBoth(s: ReviewsState)
    ensures var t := ApplyIntents(s, ClearRatingButton());
      t.minRating == None && t.maxRating == None && t.sortOrder == Unsorted
      && t.selectedCategory == s.selectedCategory
  {
    var intents := ClearRatingButton();
    assert ApplyIntents(s, intents) == ApplyIntents(ApplyIntent(s, intents[0]), intents[1..]);
  }

  lemma MinRatingButtonSetsMinimum(s: ReviewsState)
    ensures var t := ApplyIntents(s, MinRatingButton());
      t.minRating == Some(5) && t.maxRating == None && t.sortOrder == Ascending
  {
    var intents := MinRatingButton();
    assert ApplyIntents(s, intents) == ApplyIntents(ApplyIntent(s, intents[0]), intents[1..]);
  }

  // ---------------------------------------------------------------------
  // The state holder

  /** A launched load: the filter it was launched with and how far it has got. */
  datatype LoadJob = LoadJob(query: ReviewsQuery, phase: Phase)

  class ReviewsViewModel {
    var state: ReviewsState
    /** Every load launched so far, in launch order. */
    var jobs: seq<LoadJob>

    ghost predicate Valid()
      reads this
    {
      && Invariant(state)
      && (state.isLoading ==> exists j :: 0 <= j < |jobs| && jobs[j].phase == Running)
    }

    /** Creating the holder launches one load with no filter. */
    constructor ()
      ensures Valid()
      ensures state == InitialState()
      ensures jobs == [LoadJob(InitialQuery, Launched)]
    {
      state := InitialState();
      jobs := [];
      new;
      Launch(InitialQuery);
    }

    /** Schedules a load with the given filter; nothing runs yet. */
    method Launch(query: ReviewsQuery)
      requires Valid()
      modifies this
      ensures Valid()
      ensures state == old(state)
      ensures jobs == old(jobs) + [LoadJob(query, Launched)]
    {
      ghost var before := jobs;
      jobs := jobs + [LoadJob(query, Launched)];
      assert forall j :: 0 <= j < |before| ==> jobs[j] == before[j];
    }

    method OnIntent(intent: ReviewsIntent)
      requires Valid()
      modifies this
      ensures Valid()
      ensures state == ApplyIntent(old(state), intent)
      ensures jobs == old(jobs) + [LoadJob(LoadQuery(intent, state), Launched)]
    {
      StepPreservesInvariant(state, Intent(intent));
      state := ApplyIntent(state, intent);
      Launch(LoadQuery(intent, state));
    }

    /** Job `j` starts running: its opening update. */
    method Begin(j: nat)
      requires Valid()
      requires j < |jobs| && jobs[j].phase == Launched
      modifies this
      ensures Valid()
      ensures state == LoadStarted(old(state))
      ensures jobs == old(jobs)[j := LoadJob(old(jobs)[j].query, Running)]
    {
      state := LoadStarted(state);
      jobs := jobs[j := LoadJob(jobs[j].query, Running)];
      assert jobs[j].phase == Running;
    }

    /** Job `j`'s producer emitted `results`. */
    method Succeed(j: nat, results: seq<Review>)
      requires Valid()
      requires j < |jobs| && jobs[j].phase == Running
      modifies this
      ensures Valid()
      ensures state == LoadSucceeded(old(state), results)
      ensures jobs == old(jobs)[j := LoadJob(old(jobs)[j].query, Finished)]
    {
      StepPreservesInvariant(state, Succeeded(results));
      state := LoadSucceeded(state, results);
      jobs := jobs[j := LoadJob(jobs[j].query, Finished)];
    }

    /** Job `j`'s producer threw with `message`. */
    method Fail(j: nat, message: Option<string>)
      requires Valid()
      requires j < |jobs| && jobs[j].phase == Running
      modifies this
      ensures Valid()
      ensures state == LoadFailed(old(state), message)
      ensures jobs == old(jobs)[j := LoadJob(old(jobs)[j].query, Finished)]
    {
      StepPreservesInvariant(state, Failed(message));
      state := LoadFailed(state, message);
      jobs := jobs[j := LoadJob(jobs[j].query, Finished)];
    }

    /**
     * Job `j` collects the repository's producer for the filter it was
     * launched with, against the remote source `api`: the mapped list on a
     * response, the source's message on a failure.
     */
    method Complete(j: nat, api: ReviewsQuery -> ApiResult<FoodReviewDto>)
      requires Valid()
      requires j < |jobs| && jobs[j].phase == Running
      modifies this
      ensures Valid()
      ensures jobs == old(jobs)[j := LoadJob(old(jobs)[j].query, Finished)]
      ensures match api(old(jobs)[j].query)
        case Response(body) => state == LoadSucceeded(old(state), MapReports(body.reports))
        case ApiFailure(message) => state == LoadFailed(old(state), message)
    {
      var q := jobs[j].query;
      assert q == ReviewsQuery(q.category, q.minRating, q.maxRating);
      var flow := GetReviews(api, q.category, q.minRating, q.maxRating);
      match flow
      case Emitted(values) =>
        Succeed(j, values[0]);
      case Threw(message) =>
        Fail(j, message);
    }
  }

  /**
   * A new holder whose first load runs to completion against `api`: the
   * unfiltered list in the server's order, or the source's message over an
   * empty list.
   */
  method CreateAndLoad(api: ReviewsQuery -> ApiResult<FoodReviewDto>) returns (vm: ReviewsViewModel)
    ensures !vm.state.isLoading && vm.state.sortOrder == Unsorted
    ensures match api(ReviewsQuery(None, None, None))
      case Response(body) => vm.state.reviews == MapReports(body.reports) && vm.state.error == None
      case ApiFailure(message) => vm.state.reviews == [] && vm.state.error == Some(ErrorText(message))
  {
    vm := new ReviewsViewModel();
    vm.Begin(0);
    vm.Complete(0, api);
  }

  /**
   * Loads are applied in completion order. Choose a minimum of 3, then a
   * maximum of 5, and let the second load answer first: the first load's
   * answer, fetched under the minimum, replaces it and is shown under the
   * maximum filter, sorted descending because that is the order at
   * completion.
   */
  method StaleResponseOverwritesNewerOne(high: Review, low: Review) returns (vm: ReviewsViewModel)
    requires high.rating == 9.0 && low.rating == 4.0
    ensures |vm.jobs| == 3
    ensures vm.jobs[1] == LoadJob(ReviewsQuery(None, Some(3), None), Finished)
    ensures vm.jobs[2] == LoadJob(ReviewsQuery(None, None, Some(5)), Finished)
    ensures && vm.state.reviews == [high] && vm.state.reviews[0].rating > 5.0
            && vm.state.maxRating == Some(5) && vm.state.sortOrder == Descending
            && !vm.state.isLoading
  {
    vm := MinimumThenMaximum();
    StaleStates(low, high);
    vm.Begin(1);
    vm.Begin(2);
    vm.Succeed(2, [low]);
    vm.Succeed(1, [high]);
  }

  /**
   * A new holder after UpdateMinRating(3) and then UpdateMaxRating(5): the
   * filter shows only the maximum, and three loads are queued, the second
   * with the minimum and the third with the maximum.
   */
  method MinimumThenMaximum() returns (vm: ReviewsViewModel)
    ensures fresh(vm) && vm.Valid()
    ensures vm.state == ReviewsState([], false, None, None, None, Some(5), [], Descending)
    ensures vm.jobs == [LoadJob(InitialQuery, Launched),
                        LoadJob(ReviewsQuery(None, Some(3), None), Launched),
                        LoadJob(ReviewsQuery(None, None, Some(5)), Launched)]
  {
    vm := new ReviewsViewModel();
    vm.OnIntent(UpdateMinRating(Some(3)));
    vm.OnIntent(UpdateMaxRating(Some(5)));
  }

  /** The states the trace above passes through once both intents are sent. */
  lemma StaleStates(first: Review, last: Review)
    ensures var underMax := ReviewsState([], false, None, None, None, Some(5), [], Descending);
      && ApplyIntent(ApplyIntent(InitialState(), UpdateMinRating(Some(3))), UpdateMaxRating(Some(5))) == underMax
      && LoadSucceeded(LoadStarted(LoadStarted(underMax)), [first]) == underMax.(reviews := [first])
      && LoadSucceeded(underMax.(reviews := [first]), [last]) == underMax.(reviews := [last])
  {
    assert StableSort([first], true) == [first];
    assert StableSort([last], true) == [last];
  }
}
