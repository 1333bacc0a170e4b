/**
 * The review repository: adapts the remote API's wire records to domain
 * reviews. Each operation is a single-shot producer. The remote API is a
 * parameter: a total function from the request it receives to either a
 * response body or a failure that carries an optional message.
 */
module Repository {
  import opened Wrappers
  import opened ReviewMapping

  /** The filter of a list request: `category`, `min_rating`, `max_rating`. */
  datatype ReviewsQuery = ReviewsQuery(category: Option<string>, minRating: Option<int>, maxRating: Option<int>)

  /** Response bodies of the two endpoints. */
  datatype FoodReviewDto = FoodReviewDto(reports: seq<ReportDto>)
  datatype ReportResponseDto = ReportResponseDto(report: ReportDto)

  /** What a remote call produces: a body, or an exception and its message (possibly null). */
  datatype ApiResult<T> = Response(body: T) | ApiFailure(message: Option<string>)

  /**
   * What a collector observes of a producer: the values it emitted before
   * completing normally, or the exception it finished with (having emitted
   * nothing).
   */
  datatype Flow<T> = Emitted(values: seq<T>) | Threw(message: Option<string>)

  /** `reports.map { it.toReview() }` */
  function MapReports(reports: seq<ReportDto>): (r: seq<Review>)
    ensures |r| == |reports|
    ensures forall i :: 0 <= i < |reports| ==> r[i] == ToReview(reports[i])
  {
    if reports == [] then [] else [ToReview(reports[0])] + MapReports(reports[1..])
  }

  /**
   * The list producer. The three filter arguments reach the API unchanged;
   * on a response it emits exactly one list, the reports mapped one by one in
   * their order; on a failure it emits nothing and rethrows the same message.
   */
  function GetReviews(api: ReviewsQuery -> ApiResult<FoodReviewDto>,
                      category: Option<string>, minRating: Option<int>, maxRating: Option<int>): (r: Flow<seq<Review>>)
    ensures var sent := api(ReviewsQuery(category, minRating, maxRating));
      && (r.Emitted? <==> sent.Response?)
      && (r.Emitted? ==>
            && |r.values| == 1
            && |r.values[0]| == |sent.body.reports|
            && forall i :: 0 <= i < |sent.body.reports| ==> r.values[0][i] == ToReview(sent.body.reports[i]))
      && (r.Threw? ==> r.message == sent.message)
  {
    match api(ReviewsQuery(category, minRating, maxRating))
    case Response(body) => Emitted([MapReports(body.reports)])
    case ApiFailure(message) => Threw(message)
  }

  /** An empty `reports` array yields one emission of the empty list. */
  lemma GetReviewsEmptyReports(api: ReviewsQuery -> ApiResult<FoodReviewDto>,
                               category: Option<string>, minRating: Option<int>, maxRating: Option<int>)
    requires api(ReviewsQuery(category, minRating, maxRating)) == Response(FoodReviewDto([]))
    ensures GetReviews(api, category, minRating, maxRating) == Emitted([[]])
  {
  }

  /**
   * The single-review producer: the id reaches the API unchanged; on a
   * response it emits exactly the mapped report; on a failure it emits
   * nothing and rethrows the same message.
   */
  function GetReviewById(api: string -> ApiResult<ReportResponseDto>, id: string): (r: Flow<Review>)
    ensures var sent := api(id);
      && (r.Emitted? <==> sent.Response?)
      && (r.Emitted? ==> r.values == [ToReview(sent.body.report)])
      && (r.Threw? ==> r.message == sent.message)
  {
    match api(id)
    case Response(body) => Emitted([ToReview(body.report)])
    case ApiFailure(message) => Threw(message)
  }
}
