# Food reviews client: state layer in Dafny

This project models the client-side state layer of an Android app that lists
food reviews from a REST API and shows one review in detail. It covers:

- the wire-to-domain mapping of a report (`ReportDto.toReview`), where a
  missing category becomes `"Others"`;
- the repository's two single-shot producers, with the remote API as a
  parameter: a total function from the request to a response body or a
  failure with an optional message;
- the list screen's state holder (`ReviewsViewModel`): its state record,
  its four intents, the three steps of a load (begin, success, failure), and
  the rating sort policy;
- the detail screen's state holder (`ReviewDetailViewModel`), with the same
  three steps for fetching one review by id;
- the navigation routes (`Screens.Reviews`, `Screens.Detail`, `createRoute`).

Files and modules:

- `wrappers.dfy` (`Wrappers`): `Option` for Kotlin's nullable values, `Result` for a value or an exception.
- `review_mapping.dfy` (`ReviewMapping`): `Review`, `ReportDto`, `ToReview`.
- `rating_sort.dfy` (`RatingSort`): a reference definition of Kotlin's stable `sortedBy` / `sortedByDescending` on the rating. It is proved sorted, a permutation, stable, and the only stable sort.
- `repository.dfy` (`Repository`): `MapReports`, `GetReviews`, `GetReviewById`.
- `screens.dfy` (`Screens`): routes and `CreateRoute`, with its inverse `DetailArgument`.
- `loading.dfy` (`Loading`): the phase of a launched load and the fallback error text, shared by both holders.
- `reviews_view_model.dfy` (`ReviewsList`): the list state, pure transition functions, a trace semantics with the reachable-state invariant, and the class `ReviewsViewModel`.
- `review_detail_view_model.dfy` (`ReviewDetail`): the detail state, its transitions, and the class `ReviewDetailViewModel`.

Each coroutine launch is an explicit job in the holder's `jobs` log. A job
records the request it was launched with and moves from `Launched` to
`Running` (its opening state update, `Begin`) to `Finished` (`Succeed`,
`Fail`, or `Complete`, which runs the repository producer against a given API
and dispatches to one of the two). The jobs can interleave in any order, so
the model can show that a load sorts by the order in force when its result
arrives, and that a stale answer can overwrite a newer one. Ratings are
`real` (the source's `Double`) and the rating filters are `Option<int>`.
`LoadReviewsUseCase` only passes its arguments on, so a job's recorded
`ReviewsQuery` is exactly what the API receives.

## Model

| member | source | states |
|---|---|---|
| `ReviewMapping.ToReview` | app/src/main/java/com/lloyds/test/data/remote/dto/ReportDto.kt:18-28 | the report-to-review mapping; what it promises is stated by `ToReviewCopiesFields` (seven fields copied verbatim) and `ToReviewCategory` (a null category becomes "Others", a present one is kept) |
| `ReviewMapping.ToReviewCopiesFields` | app/src/main/java/com/lloyds/test/data/remote/dto/ReportDto.kt:18-28 | id, product, manufacturer, rating, dateReleased, videoCode and videoTitle are copied verbatim |
| `ReviewMapping.ToReviewCategory` | app/src/main/java/com/lloyds/test/data/remote/dto/ReportDto.kt:23 | a null category becomes "Others"; a present category is kept unchanged |
| `ReviewMapping.ToReviewEqualIff` | app/src/main/java/com/lloyds/test/data/remote/dto/ReportDto.kt:18-28 | two reports map to the same review if and only if they differ at most in a null versus "Others" category |
| `Repository.MapReports` | app/src/main/java/com/lloyds/test/data/repository/FoodReviewRepositoryImpl.kt:29 | the mapped list has the length of the reports, and element i is the mapping of report i (order kept) |
| `Repository.GetReviews` | app/src/main/java/com/lloyds/test/data/repository/FoodReviewRepositoryImpl.kt:16-31 | the three filters reach the API unchanged; on a response exactly one list is emitted, the reports mapped in order; on a failure nothing is emitted and the same message is rethrown |
| `Repository.GetReviewsEmptyReports` | app/src/main/java/com/lloyds/test/data/repository/FoodReviewRepositoryImpl.kt:22-30 | an empty reports array yields one emission of the empty list |
| `Repository.GetReviewById` | app/src/main/java/com/lloyds/test/data/repository/FoodReviewRepositoryImpl.kt:33-37 | the id reaches the API unchanged; on a response exactly the mapped report is emitted; on a failure nothing is emitted and the same message is rethrown |
| `Screens.Route` | app/src/main/java/com/lloyds/test/presentation/constants/Screens.kt:3-10 | the list's route "Reviews" is not a detail route; the detail route is the template whose argument slot reads back as the placeholder "{reviewId}" |
| `Screens.CreateRoute` | app/src/main/java/com/lloyds/test/presentation/constants/Screens.kt:3-17 | Reviews returns "Reviews" for any arguments; Detail succeeds iff there is exactly one argument, giving "ReviewDetail/" followed by it; otherwise it fails with "Invalid number of arguments" |
| `Screens.DetailArgument` | app/src/main/java/com/lloyds/test/presentation/constants/Screens.kt:10-13 | the review id can be read back from a route exactly when the route starts with the "ReviewDetail/" prefix of the template |
| `Screens.DetailRouteRoundTrip` | app/src/main/java/com/lloyds/test/presentation/constants/Screens.kt:13 | stripping the prefix from a created detail route gives back its argument |
| `Screens.DetailArgumentRoundTrip` | app/src/main/java/com/lloyds/test/presentation/constants/Screens.kt:13 | every route whose argument can be read back is the route created from that argument |
| `Loading.ErrorText` | app/src/main/java/com/lloyds/test/presentation/reviews/ReviewsViewModel.kt:145 | a failure's own message is shown as it is; a failure without one shows "An error occurred" (the same fallback as ReviewDetailViewModel.kt line 46) |
| `RatingSort.Insert` | app/src/main/java/com/lloyds/test/presentation/reviews/ReviewsViewModel.kt:130-131 | inserting into a sorted list gives a sorted list with the element added to its multiset |
| `RatingSort.StableSort` | app/src/main/java/com/lloyds/test/presentation/reviews/ReviewsViewModel.kt:130-131 | the result is sorted by the key (rating, or minus the rating for descending) and is a permutation of the input |
| `RatingSort.StableSortKeepsTies` | app/src/main/java/com/lloyds/test/presentation/reviews/ReviewsViewModel.kt:130-131 | reviews with equal ratings keep their input order |
| `RatingSort.SameTiesSameSorted` | app/src/main/java/com/lloyds/test/presentation/reviews/ReviewsViewModel.kt:130-131 | two sorted lists with the same runs of equal ratings are equal |
| `RatingSort.StableSortIsUnique` | app/src/main/java/com/lloyds/test/presentation/reviews/ReviewsViewModel.kt:130-131 | any sorted list that keeps ties in input order is the stable sort of the input |
| `ReviewsList.InitialState` | app/src/main/java/com/lloyds/test/presentation/reviews/ReviewsViewModel.kt:15-24 | the default state (empty list, no spinner, no error, no filters, order NONE) satisfies the reachable-state invariant |
| `ReviewsList.ApplyIntent` | app/src/main/java/com/lloyds/test/presentation/reviews/ReviewsViewModel.kt:65-111 | each intent's state edit; what it promises is stated by `IntentTouchesOnlyFilters`, `RatingIntentsExclusive`, `IntentIdempotent` and `LaterRatingIntentWins` |
| `ReviewsList.LoadQuery` | app/src/main/java/com/lloyds/test/presentation/reviews/ReviewsViewModel.kt:67-110 | the filter each intent's load sends; stated by `IntentLoadsWith` and `FilterIntentLoadsShownFilter` |
| `ReviewsList.LoadStarted` | app/src/main/java/com/lloyds/test/presentation/reviews/ReviewsViewModel.kt:121 | a load's opening update; stated by `StartKeepsListAndFilters` |
| `ReviewsList.LoadSucceeded` | app/src/main/java/com/lloyds/test/presentation/reviews/ReviewsViewModel.kt:127-139 | a load's success update; stated by `SuccessStoresSortedResults` |
| `ReviewsList.LoadFailed` | app/src/main/java/com/lloyds/test/presentation/reviews/ReviewsViewModel.kt:141-148 | a load's failure update; stated by `FailureShowsMessage` |
| `ReviewsList.ApplySortPolicy` | app/src/main/java/com/lloyds/test/presentation/reviews/ReviewsViewModel.kt:128-133 | a permutation of the input; non-decreasing by rating for ASCENDING, non-increasing for DESCENDING, the input itself for NONE |
| `ReviewsList.SortPolicyIsStable` | app/src/main/java/com/lloyds/test/presentation/reviews/ReviewsViewModel.kt:128-133 | under every sort order, reviews with equal ratings keep the server's order |
| `ReviewsList.IntentTouchesOnlyFilters` | app/src/main/java/com/lloyds/test/presentation/reviews/ReviewsViewModel.kt:65-111 | no intent changes the list, the spinner, the error or the categories; LoadReviews changes nothing; UpdateCategory changes only the category |
| `ReviewsList.IntentLoadsWith` | app/src/main/java/com/lloyds/test/presentation/reviews/ReviewsViewModel.kt:65-111 | LoadReviews loads with its own arguments; UpdateCategory with the new category and the current bounds; UpdateMinRating with the current category, its rating and no maximum; UpdateMaxRating the mirror image |
| `ReviewsList.FilterIntentLoadsShownFilter` | app/src/main/java/com/lloyds/test/presentation/reviews/ReviewsViewModel.kt:74-111 | every intent except LoadReviews loads exactly the filter the state shows after it |
| `ReviewsList.RatingIntentsExclusive` | app/src/main/java/com/lloyds/test/presentation/reviews/ReviewsViewModel.kt:83-111 | UpdateMinRating sets the minimum, clears the maximum and sorts ASCENDING iff its rating is present; UpdateMaxRating the mirror image with DESCENDING; neither changes any other field |
| `ReviewsList.IntentIdempotent` | app/src/main/java/com/lloyds/test/presentation/reviews/ReviewsViewModel.kt:65-111 | sending an intent twice leaves the same state as sending it once |
| `ReviewsList.LaterRatingIntentWins` | app/src/main/java/com/lloyds/test/presentation/reviews/ReviewsViewModel.kt:83-111 | of two rating intents in a row, the second alone decides bounds and sort order (UpdateMinRating(3) then UpdateMaxRating(5) gives no minimum, maximum 5, DESCENDING) |
| `ReviewsList.StartKeepsListAndFilters` | app/src/main/java/com/lloyds/test/presentation/reviews/ReviewsViewModel.kt:121 | a load's opening update shows the spinner, clears the error and keeps the stale list and every filter |
| `ReviewsList.SuccessStoresSortedResults` | app/src/main/java/com/lloyds/test/presentation/reviews/ReviewsViewModel.kt:127-139 | a success stores a permutation of the results sorted by the order in force at completion (the input itself under NONE), turns the spinner off and changes nothing else |
| `ReviewsList.FailureShowsMessage` | app/src/main/java/com/lloyds/test/presentation/reviews/ReviewsViewModel.kt:141-148 | a failure turns the spinner off and shows the message, or "An error occurred" when there is none; list and filters are kept |
| `ReviewsList.StepPreservesInvariant` | app/src/main/java/com/lloyds/test/presentation/reviews/ReviewsViewModel.kt:65-148 | every intent and every load step keeps the invariant |
| `ReviewsList.RunPreservesInvariant` | app/src/main/java/com/lloyds/test/presentation/reviews/ReviewsViewModel.kt:65-148 | any trace of intents and load steps keeps the invariant |
| `ReviewsList.ReachableStatesSatisfyInvariant` | app/src/main/java/com/lloyds/test/presentation/reviews/ReviewsViewModel.kt:15-24 | in every reachable state not both bounds are set, the order is ASCENDING iff the minimum is set and DESCENDING iff the maximum is, categories stay empty, and no error shows with the spinner |
| `ReviewsList.MinRatingButtonAsWrittenClearsFilter` | app/src/main/java/com/lloyds/test/presentation/reviews/ui/ReviewsScreen.kt:269-272 | the "Min Rating (5)" button as written leaves no minimum, no maximum and order NONE |
| `ReviewsList.MinRatingButtonSetsMinimum` | app/src/main/java/com/lloyds/test/presentation/reviews/ui/ReviewsScreen.kt:269-272 | the corrected button (clear the maximum, then set the minimum) leaves minimum 5, no maximum, ASCENDING |
| `ReviewsList.MaxRatingButtonSetsMaximum` | app/src/main/java/com/lloyds/test/presentation/reviews/ui/ReviewsScreen.kt:297-300 | the "Max Rating (5+)" button leaves maximum 5, no minimum, DESCENDING |
| `ReviewsList.ClearRatingButtonClearsBoth` | app/src/main/java/com/lloyds/test/presentation/reviews/ui/ReviewsScreen.kt:332-335 | "Clear Rating Filter" leaves neither bound, order NONE, and the category as it was |
| `ReviewsList.ReviewsViewModel.constructor` | app/src/main/java/com/lloyds/test/presentation/reviews/ReviewsViewModel.kt:58-63 | the initial state has an empty list, no spinner, no error, no filters and order NONE; exactly one load is launched, with no filter |
| `ReviewsList.ReviewsViewModel.Launch` | app/src/main/java/com/lloyds/test/presentation/reviews/ReviewsViewModel.kt:115-120 | launching a load records its filter and leaves the state alone |
| `ReviewsList.ReviewsViewModel.OnIntent` | app/src/main/java/com/lloyds/test/presentation/reviews/ReviewsViewModel.kt:65-113 | the state becomes the intent's edit, and one load is launched with the filter read after the edit; the invariant is kept |
| `ReviewsList.ReviewsViewModel.Begin` | app/src/main/java/com/lloyds/test/presentation/reviews/ReviewsViewModel.kt:120-121 | the job starts running and the opening update is applied |
| `ReviewsList.ReviewsViewModel.Succeed` | app/src/main/java/com/lloyds/test/presentation/reviews/ReviewsViewModel.kt:127-139 | the job finishes and its results are stored, sorted by the current order |
| `ReviewsList.ReviewsViewModel.Fail` | app/src/main/java/com/lloyds/test/presentation/reviews/ReviewsViewModel.kt:141-148 | the job finishes and its error is shown |
| `ReviewsList.ReviewsViewModel.Complete` | app/src/main/java/com/lloyds/test/presentation/reviews/ReviewsViewModel.kt:122-148 | the job runs the repository producer for its own filter: the mapped list is stored on a response, the source's message shown on a failure |
| `ReviewsList.CreateAndLoad` | app/src/main/java/com/lloyds/test/presentation/reviews/ReviewsViewModel.kt:61-63 | a new holder whose first load completes shows the unfiltered list in server order with no error, or an empty list with the source's message |
| `ReviewsList.MinimumThenMaximum` | app/src/main/java/com/lloyds/test/presentation/reviews/ReviewsViewModel.kt:83-111 | on a new holder, UpdateMinRating(3) then UpdateMaxRating(5) leave only maximum 5 and DESCENDING shown, and queue three loads: no filter, minimum 3 alone, maximum 5 alone |
| `ReviewsList.StaleResponseOverwritesNewerOne` | app/src/main/java/com/lloyds/test/presentation/reviews/ReviewsViewModel.kt:65-140 | on a new holder, UpdateMinRating(3) launches job 1 with minimum 3 and UpdateMaxRating(5) job 2 with maximum 5; both start, job 2 answers first with a review rated 4, then job 1 with one rated 9: the review rated 9 ends up shown under maximum 5, sorted DESCENDING, spinner off |
| `ReviewDetail.InitialDetailState` | app/src/main/java/com/lloyds/test/presentation/details/ReviewDetailViewModel.kt:15-27 | the default state (no review, no spinner, no error) satisfies the detail invariant |
| `ReviewDetail.FetchStarted` | app/src/main/java/com/lloyds/test/presentation/details/ReviewDetailViewModel.kt:33 | a fetch's opening update; stated by `FetchTransitions` and `FetchCycleEndsIdle` |
| `ReviewDetail.FetchSucceeded` | app/src/main/java/com/lloyds/test/presentation/details/ReviewDetailViewModel.kt:34-41 | a fetch's success update; stated by `FetchTransitions` and `FetchCycleEndsIdle` |
| `ReviewDetail.FetchFailed` | app/src/main/java/com/lloyds/test/presentation/details/ReviewDetailViewModel.kt:42-49 | a fetch's failure update; stated by `FetchTransitions` and `FetchCycleEndsIdle` |
| `ReviewDetail.FetchTransitions` | app/src/main/java/com/lloyds/test/presentation/details/ReviewDetailViewModel.kt:33-49 | every step keeps "no error with the spinner"; a loaded review is never cleared: the opening update and a failure keep it, a success replaces it |
| `ReviewDetail.FetchCycleEndsIdle` | app/src/main/java/com/lloyds/test/presentation/details/ReviewDetailViewModel.kt:33-49 | begin then success shows the review with no spinner and no error; begin then failure shows no spinner, the message or "An error occurred", and the earlier review |
| `ReviewDetail.ReviewDetailViewModel.constructor` | app/src/main/java/com/lloyds/test/presentation/details/ReviewDetailViewModel.kt:15-27 | the initial state has no review, no spinner and no error; nothing is launched |
| `ReviewDetail.ReviewDetailViewModel.GetReview` | app/src/main/java/com/lloyds/test/presentation/details/ReviewDetailViewModel.kt:30-31 | a fetch for exactly the given id is launched; the state is untouched |
| `ReviewDetail.ReviewDetailViewModel.Begin` | app/src/main/java/com/lloyds/test/presentation/details/ReviewDetailViewModel.kt:33 | the fetch starts running: spinner on, error cleared, review kept |
| `ReviewDetail.ReviewDetailViewModel.Succeed` | app/src/main/java/com/lloyds/test/presentation/details/ReviewDetailViewModel.kt:34-41 | the fetch finishes and its review is shown with the spinner off |
| `ReviewDetail.ReviewDetailViewModel.Fail` | app/src/main/java/com/lloyds/test/presentation/details/ReviewDetailViewModel.kt:42-49 | the fetch finishes, the spinner goes off and the message or "An error occurred" is shown |
| `ReviewDetail.ReviewDetailViewModel.Complete` | app/src/main/java/com/lloyds/test/presentation/details/ReviewDetailViewModel.kt:32-49 | the fetch runs the repository producer for its id: the mapped report is shown on a response, the source's message on a failure |
| `ReviewDetail.LoadOneReview` | app/src/main/java/com/lloyds/test/presentation/details/ReviewDetailViewModel.kt:30-49 | fetching "1" from a source that has it ends with that review shown, no spinner and no error |

## Left out

- The Compose screens, navigation host and activity are not modelled, nor is the display precedence of spinner, error and list. Only the three rating buttons' intent sequences are taken from the list screen.
- The video launch with its web fallback and toast is Android platform code.
- HTTP, JSON decoding and dependency injection are replaced by the API parameter.
- Coroutine scheduling is modelled only by explicit job events. Cancelling jobs when a holder is destroyed is not modelled.
- A producer that emits several values before completing is not modelled: `Succeed` handles one emission, and both repository producers emit exactly one.
- `Double` rating semantics (NaN, negative zero, rounding) are replaced by `real`.
- `createRoute` takes arguments of any type and interpolates their `toString`. Here the arguments are given as strings already.
- Reading `state.value` between an intent's edit and its load is assumed to see that edit. This holds because both run on the main thread.
- The `categories` field is never populated; the invariant says it stays empty.

## Findings

| source | as written | input that shows it | evidently intended | confidence | as-written member | corrected member |
|---|---|---|---|---|---|---|
| app/src/main/java/com/lloyds/test/presentation/reviews/ui/ReviewsScreen.kt:269-272 | the "Min Rating (5)" button sends UpdateMinRating(5) and then UpdateMaxRating(null), and the second intent clears the minimum the first one set | press "Min Rating (5)" in any state: the state ends with no minimum, no maximum and order NONE, and the button's own highlight test (minRating == 5) never holds | minimum 5, no maximum, ASCENDING: the button's own highlight test `minRating == 5` (line 276) can only hold if the minimum survives, and the "Max Rating (5+)" button (lines 297-300) clears the other bound first and sets its own bound last | high; not executed | `ReviewsList.MinRatingButtonAsWrittenClearsFilter` | `ReviewsList.MinRatingButtonSetsMinimum` |
