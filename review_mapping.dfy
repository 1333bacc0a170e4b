/**
 * The domain entity `Review` and the wire record `ReportDto` it is mapped
 * from. The only normalisation at this boundary is that a missing category
 * becomes "Others".
 */
module ReviewMapping {
  import opened Wrappers

  /** A review as the rest of the client sees it: every field present. */
  datatype Review = Review(
    id: string,
    product: string,
    manufacturer: string,
    category: string,
    rating: real,
    dateReleased: string,
    videoCode: string,
    videoTitle: string)

  /** A report as the remote API sends it: the category may be null. */
  datatype ReportDto = ReportDto(
    category: Option<string>,
    dateReleased: string,
    id: string,
    manufacturer: string,
    product: string,
    rating: real,
    videoCode: string,
    videoTitle: string)

  const DefaultCategory: string := "Others"

  function ToReview(dto: ReportDto): Review {
    Review(
      id := dto.id,
      product := dto.product,
      manufacturer := dto.manufacturer,
      category := dto.category.GetOr(DefaultCategory),
      rating := dto.rating,
      dateReleased := dto.dateReleased,
      videoCode := dto.videoCode,
      videoTitle := dto.videoTitle)
  }

  /** Every field except the category crosses the boundary unchanged. */
  lemma ToReviewCopiesFields(dto: ReportDto)
    ensures var r := ToReview(dto);
      && r.id == dto.id && r.product == dto.product && r.manufacturer == dto.manufacturer
      && r.rating == dto.rating && r.dateReleased == dto.dateReleased
      && r.videoCode == dto.videoCode && r.videoTitle == dto.videoTitle
  {
  }

  /** A null category maps to "Others"; a present one is kept as it is. */
  lemma ToReviewCategory(dto: ReportDto)
    ensures dto.category == None ==> ToReview(dto).category == "Others"
    ensures forall c :: dto.category == Some(c) ==> ToReview(dto).category == c
  {
  }

  /** Two reports that agree everywhere except that one has a null category and the other "Others". */
  predicate SameUpToDefaultCategory(a: ReportDto, b: ReportDto) {
    && a.(category := None) == b.(category := None)
    && (a.category == b.category
        || (a.category == None && b.category == Some(DefaultCategory))
        || (a.category == Some(DefaultCategory) && b.category == None))
  }

  /**
   * The mapping forgets exactly one thing: whether "Others" was sent or
   * defaulted. Two reports map to the same review if and only if they
   * differ at most in that way.
   */
  lemma ToReviewEqualIff(a: ReportDto, b: ReportDto)
    ensures ToReview(a) == ToReview(b) <==> SameUpToDefaultCategory(a, b)
  {
    if ToReview(a) == ToReview(b) {
      assert a.(category := None) == b.(category := None);
    }
  }
}
